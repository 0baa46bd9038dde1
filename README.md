# usaxs-bits core, modelled in Dafny

This project models the decision logic of the USAXS/SAXS/WAXS instrument
package of the APS USAXS beamline and proves properties of that model. The
package itself is mostly bluesky plans and ophyd devices. Its EPICS side
becomes plain state here: a mode record, tune counters, registries, a map
of HDF5 datasets, and a file system of directories and text files.

The modules follow the package:

- **Instrument modes** (`InstrumentModes`, `ModeChanges`, `LegacyModeChanges`).
  - The mode-code table and the out-of-beam check.
  - The `move_*Out`/`move_*In` plans of the three copies of
    `move_instrument.py`, as a class whose mode field the plans write.
  - The `mode_*` compositions of both copies of `mode_changes.py`.
- **Command lists** (`CommandList`).
  - Text and spreadsheet parsing.
  - Checking scan rows against the stage travel limits.
  - Case-insensitive dispatch that stops at the first failure.
  - `SET terms.x value`, and the order-number synchronisation.
- **Tuning** (`TuneScheduler`): the `needed` rule with its read-and-reset side effect, and the tune plans that reset the counters.
- **Small registries**:
  - `Overrides`: the user-override table;
  - `SampleTitles`: the sample-title function slot;
  - `GlobalSuspenders`: the suspender slots;
  - `UserData`: the sample-name handler and the status-message truncation.
- **Fly-scan NeXus files**.
  - `NexusStructure`: the structure manager, its four registries keyed by HDF5 path, signal naming, connection state.
  - `SaveFlyData`: the two write passes, value preparation, group creation in sorted order, links, the command-line checks.
- **Amplifiers** (`Amplifiers`, `AmplifierPlans`).
  - Grouping controls by scaler.
  - The bounded autoscale loop and its restore of the scaler settings.
  - The background sweep over the gains.
- **Utilities**:
  - `CleanupText`, `DictFromLists`, `FileExists`, `ReadableTime`, `Linkam`;
  - `AreaDetectorCommon`, `AreaDetectorPaths`, `NexusWriter`;
  - `DataDirs`, `Obsidian`, `Slits`, `Filters`, `CamonitorLog`.
- **Shared definitions**:
  - `Wrappers`: the exceptions as an `Error` datatype, with `Option` and `Result`.
  - `Text`: the string functions the code uses.
  - `OrderedDicts`: Python dictionaries as insertion-ordered item lists.
  - `FileTree`: `pathlib` paths and a file system.

Where the package keeps several copies of a file, one model serves them all:

- A `Variant`, `Copy` or flag parameter selects the behaviour where the copies differ.
- The table below cites the newest copy.
- The list below names the older copies each member also covers.

The older copies each member also covers, and what they share:

- `InstrumentModes.ModeTableIsBijective` also covers instrument/plans/move_instrument.py:35-43 (the older copy holds the same seven distinct names and codes); src/usaxs/original_plans/move_instrument.py:35-43 (the original copy holds the same seven distinct names and codes).
- `InstrumentModes.ConfirmOutOfBeam` also covers instrument/plans/move_instrument.py:45-59 (the older copy raises ValueError exactly when the code is not 1); src/usaxs/original_plans/move_instrument.py:46-60 (the original copy raises ValueError exactly when the code is not 1).
- `InstrumentModes.MovePlanEndsInFinalMode` also covers instrument/plans/move_instrument.py:62-250 (in the older copy out-moves end "out of beam" and in-moves in their own "in beam" code); src/usaxs/original_plans/move_instrument.py:63-236 (in the original copy out-moves end "out of beam" and in-moves in their own "in beam" code).
- `InstrumentModes.InterruptedMoveLeavesDirty` also covers instrument/plans/move_instrument.py:64-71 (the older copy closes both the ccd shutter and the Ti filter shutter before writing "dirty").
- `InstrumentModes.SaxsZMovesLastInOlderCopies` also covers src/usaxs/original_plans/move_instrument.py:155-169 (the original copy moves z alone, after the slits and y).
- `TuneScheduler.TuneTerms.Needed` also covers instrument/devices/general_terms.py:48-66 (the older `needed` gives the same answer and also clears `run_tune_next` whatever the answer, changing nothing else).
- `TuneScheduler.TuneDueIsStrict` also covers instrument/devices/general_terms.py:60-64 (the older copy's comparisons are strict too).
- `Overrides.UserOverride.Register` also covers src/usaxs/misc/override_parameters.py:48-53 (the second copy registers the same way: an existing override survives).
- `Overrides.UserOverride.Set` also covers src/usaxs/misc/override_parameters.py:55-73 (the second copy raises KeyError for unknown names in `set` and `reset`).
- `Overrides.UserOverride.ResetAll` also covers src/usaxs/misc/override_parameters.py:75-80 (the second copy leaves every registered name undefined).
- `Overrides.UserOverride.PickValue` also covers src/usaxs/misc/override_parameters.py:82-89 (the second copy falls back to the default for undefined or unknown names).
- `UserData.SampleNameSignal.RegisterHandler` also covers instrument/devices/user_data.py:55-83 (the older copy clears the handler on None and keeps a new one only when it returns a string on "test").
- `UserData.TruncateState` also covers instrument/devices/user_data.py:120-122 (the older copy cuts long messages to 35 characters plus " ..." too).
- `UserData.StateRecord.SetStatePlan` also covers instrument/devices/user_data.py:105-114 (the older copy logs and swallows a failure too).
- `NexusStructure.ManagerSlot.GetManager` also covers instrument/usaxs_support/nexus.py:52-75 (the older manager is a singleton until reset as well).
- `NexusStructure.RegisterGroup` also covers instrument/usaxs_support/nexus.py:240-259 (the older copy gives the root "/", joins child paths without a double slash and refuses a duplicate path).
- `NexusStructure.RegisterPv` also covers instrument/usaxs_support/nexus.py:314-317 (the older copy makes the same as-written label check against the path-keyed registry).
- `NexusStructure.AbsoluteLimit` also covers instrument/usaxs_support/nexus.py:335-339 (the older copy makes a relative length limit absolute the same way).
- `SaveFlyData.TargetKept` also covers instrument/usaxs_support/nexus.py:285-298 (the older `make_link` writes the "target" attribute only when it is absent).
- `SaveFlyData.WrittenOnce` also covers instrument/usaxs_support/saveFlyData.py:96-110 (the older preliminary pass skips the after-scan PVs as well).
- `SaveFlyData.Prepared` also covers instrument/usaxs_support/saveFlyData.py:112-120 (the older copy wraps scalars and cuts arrays the same way).
- `SaveFlyData.UnconnectedPv` also covers instrument/usaxs_support/saveFlyData.py:147-156 (the older `saveFile` only logs an unconnected PV and reads it anyway).
- `SaveFlyData.CreateAllGroups` also covers instrument/usaxs_support/saveFlyData.py:219-238 (the older copy creates the groups in sorted path order too).
- `SaveFlyData.MainChecks` also covers instrument/usaxs_support/saveFlyData.py:351-366 (the older `main` makes the same three checks).
- `AreaDetectorCommon.WithSeparator` also covers instrument/devices/area_detector_common.py:92-96 (the older copy appends the same kind of separator).
- `AreaDetectorCommon.PrimedIff` also covers instrument/devices/area_detector_common.py:148-170 (the older primed test is the same conjunction).
- `AreaDetectorCommon.RestoreMirrorsPriming` also covers instrument/devices/area_detector_common.py:179-206 (the older copy restores the signals in the reverse of the order it set them).

The model follows the code as written: the camonitor timestamp adds `float(micros) / 1e6`, and `makeDataset` in the current copy replaces an existing dataset while the older copy leaves it alone.

Four places in the code are evidently wrong; they are listed under Findings. For each, the model keeps the code as written beside a corrected definition, and the rest of the model uses the corrected one. The end-to-end operations that therefore differ from the code on those inputs are named under Left out.

## Model

| member | source | states |
|---|---|---|
| CleanupText.CleanupText | src/usaxs/utils/cleanup_text.py:12-27 | same length as the input; every output character is a letter, digit or underscore; those characters are kept in place and every other character becomes "_" |
| CleanupText.CleanupTextIdempotent | src/usaxs/utils/cleanup_text.py:12-27 | cleaning a cleaned text changes nothing |
| CleanupText.CleanTextUnchanged | src/usaxs/utils/cleanup_text.py:20-27 | a text made only of letters, digits and underscores comes back unchanged |
| DictFromLists.Zip | src/usaxs/utils/dict_from_lists.py:20 | `zip` pairs `labels[i]` with `values[i]` up to the shorter list |
| DictFromLists.MakeOrderedDictFromTwoLists | src/usaxs/utils/dict_from_lists.py:9-20 | ValueError exactly when there are more values than labels |
| DictFromLists.FromPairsGet | src/usaxs/utils/dict_from_lists.py:20 | building the ordered dictionary from pairs: a key reads the value of its last pair (the later value wins) |
| DictFromLists.FromPairsKeys | src/usaxs/utils/dict_from_lists.py:20 | the keys come in order of first appearance (a repeated key keeps its first position) |
| DictFromLists.FromDistinctPairs | src/usaxs/utils/dict_from_lists.py:20 | with distinct keys the dictionary is exactly the pairs, in order |
| DictFromLists.MakeOrderedDict | src/usaxs/utils/dict_from_lists.py:11-20 | with enough labels the call succeeds, each key reads its last value, and the keys are the first `len(values)` labels in first-appearance order; labels beyond the values are dropped |
| DictFromLists.MakeOrderedDictDistinct | src/usaxs/utils/dict_from_lists.py:19-20 | with distinct labels the result has `len(values)` entries, the i-th being `(labels[i], values[i])` |
| FileExists.FilenameExistsSpec | src/usaxs/utils/check_file_exists.py:15-37 | an existing exact path gives True; case-sensitive lookup of a missing path gives False; otherwise the result is True exactly when the directory (or "." for an empty one) exists and lists the name ignoring case, False when the directory is missing, and NotADirectoryError exactly when the directory part exists but is not a directory |
| FileExists.FilenameExists | src/usaxs/utils/check_file_exists.py:15-37 | the loop over the directory listing, stopping at the first case-insensitive match, returns the answer of the specification |
| FileExists.PathSplitJoin | src/usaxs/utils/check_file_exists.py:26 | `os.path.split` of `dir + "/" + name` gives back `dir` and `name` |
| FileExists.CaseVariantFound | src/usaxs/utils/check_file_exists.py:19-37 | a file stored under a different letter case is found when case is ignored and not found when it is not |
| GlobalSuspenders.Slot | src/usaxs/utils/global_suspenders.py:14-24 | a getter returns the stored suspender, and raises its RuntimeError exactly when the slot is None |
| GlobalSuspenders.Suspenders.constructor | src/usaxs/utils/global_suspenders.py:5-6 | both slots start unset |
| GlobalSuspenders.Suspenders.SetSuspenders | src/usaxs/utils/global_suspenders.py:8-12 | overwrites both slots; None unsets a slot |
| GlobalSuspenders.Suspenders.GetSuspendFEShutter | src/usaxs/utils/global_suspenders.py:14-18 | succeeds exactly when the FE slot is set, otherwise RuntimeError "FE shutter suspender not initialized" |
| GlobalSuspenders.Suspenders.GetSuspendBeamInHutch | src/usaxs/utils/global_suspenders.py:20-24 | succeeds exactly when the hutch slot is set, otherwise RuntimeError "BeamInHutch suspender not initialized" |
| GlobalSuspenders.SuspenderLifecycle | src/usaxs/utils/global_suspenders.py:5-24 | before `set_suspenders` both getters raise; after `set_suspenders(a, b)` they return `a` and `b` |
| SampleTitles.PlainSampleTitle | src/usaxs/utils/user_sample_title.py:9-33 | the title itself |
| SampleTitles.SampleTitleSlot.constructor | src/usaxs/utils/user_sample_title.py:57 | after module load the slot holds the plain title function |
| SampleTitles.SampleTitleSlot.SetSampleTitleFunction | src/usaxs/utils/user_sample_title.py:36-39 | the slot holds the given function (the latest call wins) |
| SampleTitles.SampleTitleSlot.ResetSampleTitleFunction | src/usaxs/utils/user_sample_title.py:42-45 | the slot holds the plain title function again |
| SampleTitles.SampleTitleSlot.GetSampleTitle | src/usaxs/utils/user_sample_title.py:48-54 | with the plain function the title is returned unchanged; a None slot is a TypeError |
| SampleTitles.SampleTitleLifecycle | src/usaxs/utils/user_sample_title.py:36-57 | from module load, through `setSampleTitleFunction(f)`, to a reset, the title is the identity, then `f(title)`, then the identity again |
| Overrides.Pick | src/usaxs/utils/override.py:94-101 | an unregistered name picks the default (an undefined one does too, shown by `PickAfterReset`) |
| Overrides.Cleared | src/usaxs/utils/override.py:87-92 | the table after `reset_all`: the same names in the same positions, each undefined |
| Overrides.PickAfterSet | src/usaxs/utils/override.py:63-101 | after `set(name, v)`, `pick(name, d)` gives `v` and every other name picks as before |
| Overrides.PickAfterReset | src/usaxs/utils/override.py:75-101 | after `reset(name)`, `pick(name, d)` gives `d` and every other name picks as before |
| Overrides.RegisterKeepsPicks | src/usaxs/utils/override.py:56-61 | registering changes no pick: an existing override survives re-registration |
| Overrides.ClearedGet | src/usaxs/utils/override.py:87-92 | after `reset_all` every registered name is undefined and no name is added |
| Overrides.ClearedPicksDefault | src/usaxs/utils/override.py:87-101 | after `reset_all` the registered names are unchanged and every name picks the default |
| Overrides.UserOverride.constructor | src/usaxs/utils/override.py:46-54 | an empty table |
| Overrides.UserOverride.Register | src/usaxs/utils/override.py:56-61 | adds the name as undefined only when it is absent |
| Overrides.UserOverride.Set | src/usaxs/utils/override.py:63-73 | KeyError and no change for an unregistered name; otherwise only that name's value is replaced |
| Overrides.UserOverride.Reset | src/usaxs/utils/override.py:75-85 | KeyError and no change for an unregistered name; otherwise that name becomes undefined |
| Overrides.UserOverride.ResetAll | src/usaxs/utils/override.py:87-92 | the loop of resets leaves the cleared table |
| Overrides.UserOverride.ResetAt | src/usaxs/utils/override.py:92 | one `reset` inside `reset_all`: the name at that position becomes undefined in place, and no other entry changes |
| Overrides.UserOverride.PickValue | src/usaxs/utils/override.py:94-101 | `pick` on the current table; an unregistered name gives the default |
| UserData.TruncateState | src/usaxs/devices/user_data.py:146-148 | a message of at most 39 characters is kept; a longer one becomes its first 35 characters followed by " ...", exactly 39 characters |
| UserData.TruncateStateIdempotent | src/usaxs/devices/user_data.py:146-148 | truncating twice is truncating once, and every written message fits in 39 characters |
| UserData.SampleNameSignal.constructor | src/usaxs/devices/user_data.py:46 | no handler at first |
| UserData.SampleNameSignal.Written | src/usaxs/devices/user_data.py:48-53 | with no handler the value is written unchanged |
| UserData.SampleNameSignal.Set | src/usaxs/devices/user_data.py:48-53 | writes the handler's result (or the value itself); an exception from the handler writes nothing and is passed on |
| UserData.SampleNameSignal.RegisterHandler | src/usaxs/devices/user_data.py:55-84 | None clears the handler; otherwise the function is called once on "test" and kept only when it returns a string; an exception or a non-string (ValueError) leaves the previous handler |
| UserData.RegisterThenSet | src/usaxs/devices/user_data.py:48-84 | after a successful registration of `f`, `set(v)` writes `f(v)`; after clearing, it writes `v` |
| UserData.StateRecord.constructor | src/usaxs/devices/user_data.py:87-133 | the state record holds its initial text |
| UserData.StateRecord.SetStateBlocking | src/usaxs/devices/user_data.py:142-151 | writes the truncated message; a failing put is logged and swallowed, leaving the record as it was |
| UserData.StateRecord.SetStatePlan | src/usaxs/devices/user_data.py:134-140 | writes the message as given; a failure is logged and swallowed |
| InstrumentModes.ModeCode | src/usaxs/plans/move_instrument.py:39-47 | `UsaxsSaxsModes[name]` is defined exactly for the seven mode names |
| InstrumentModes.ModeLabel | src/usaxs/plans/move_instrument.py:59-60 | the reverse lookup gives "undefined" exactly for a code not in the table |
| InstrumentModes.ModeTableIsBijective | src/usaxs/plans/move_instrument.py:39-47 | the seven names and the seven codes are pairwise distinct, and every name maps to its code and back (the same table is in the instrument/plans and original_plans copies) |
| InstrumentModes.ConfirmOutOfBeam | src/usaxs/plans/move_instrument.py:50-66 | no error exactly when the mode code is 1 ("out of beam"); otherwise the ValueError naming the code and its label |
| InstrumentModes.UnknownCodeReportedUndefined | src/usaxs/plans/move_instrument.py:58-66 | an unknown code is reported as "undefined", and the hint names code 1 |
| InstrumentModes.FinalMode | src/usaxs/plans/move_instrument.py:69-233 | the mode a move writes last is "out of beam" exactly for the out-moves |
| InstrumentModes.MotionsWriteNoMode | src/usaxs/plans/move_instrument.py:69-233 | the motor steps of a move never write the mode |
| InstrumentModes.MovePlanEndsInFinalMode | src/usaxs/plans/move_instrument.py:69-233 | a completed move leaves its final mode from any starting mode: out-moves end "out of beam", in-moves in their own "in beam" code |
| InstrumentModes.InterruptedMoveLeavesDirty | src/usaxs/plans/move_instrument.py:73-86 | every move closes the shutter(s) first and writes "dirty" second, before any motion, and writes its final mode last; a move cut off after the "dirty" write and before its last step leaves the mode dirty |
| InstrumentModes.MovePlanWritesNoImagingCode | src/usaxs/plans/move_instrument.py:69-233 | the only codes a move writes are "dirty" and its final mode, never the Imaging codes 5 or 6 |
| InstrumentModes.SaxsZMovesLastInOlderCopies | instrument/plans/move_instrument.py:161-176 | in the instrument/plans and original_plans copies `move_SAXSIn` moves `saxs_stage.z` in a step of its own after the slits and y |
| InstrumentModes.Instrument.constructor | src/usaxs/plans/move_instrument.py:39-47 | an instrument in the given copy and mode with an empty step trace |
| InstrumentModes.Instrument.Issue | src/usaxs/plans/move_instrument.py:69-86 | one plan step is appended to the trace; a mode write sets the mode |
| InstrumentModes.Instrument.IssueAll | src/usaxs/plans/move_instrument.py:69-86 | the steps are appended in order and the mode is the one the steps leave |
| InstrumentModes.Instrument.MoveOut | src/usaxs/plans/move_instrument.py:69-86 | an out-move issues its whole plan and ends "out of beam" |
| InstrumentModes.Instrument.MoveIn | src/usaxs/plans/move_instrument.py:89-120 | an in-move closes the shutter, then raises the out-of-beam ValueError without touching the mode, or issues its plan and ends in its final mode |
| InstrumentModes.Instrument.MoveWAXSOut | src/usaxs/plans/move_instrument.py:69-86 | no precondition; always ends "out of beam" |
| InstrumentModes.Instrument.MoveSAXSOut | src/usaxs/plans/move_instrument.py:123-143 | no precondition; always ends "out of beam" |
| InstrumentModes.Instrument.MoveUSAXSOut | src/usaxs/plans/move_instrument.py:182-199 | no precondition; always ends "out of beam" |
| InstrumentModes.Instrument.MoveWAXSIn | src/usaxs/plans/move_instrument.py:89-120 | succeeds exactly when the mode was "out of beam", then ends "WAXS in beam"; otherwise ValueError and the mode is unchanged |
| InstrumentModes.Instrument.MoveSAXSIn | src/usaxs/plans/move_instrument.py:146-179 | succeeds exactly when the mode was "out of beam", then ends "SAXS in beam"; otherwise ValueError and the mode is unchanged |
| InstrumentModes.Instrument.MoveUSAXSIn | src/usaxs/plans/move_instrument.py:202-233 | succeeds exactly when the mode was "out of beam", then ends "USAXS in beam"; otherwise ValueError and the mode is unchanged |
| ModeChanges.ConfirmInstrumentMode | src/usaxs/plans/mode_changes.py:57-67 | KeyError exactly for a name not in the mode table |
| ModeChanges.ConfirmAcceptsCodeOrName | src/usaxs/plans/mode_changes.py:57-67 | for every mode the check holds for exactly that mode's code and exactly that mode's name |
| ModeChanges.ConfirmRejectsUnknownName | src/usaxs/plans/mode_changes.py:65-66 | an unknown mode name is a KeyError whatever the reading |
| ModeChanges.MoveStepsReachTarget | src/usaxs/plans/mode_changes.py:163-170 | the three moves of a mode change, in any copy of the move plans, end in the change's target mode |
| ModeChanges.PlanReachesTarget | src/usaxs/plans/mode_changes.py:141-223 | `mode_USAXS`, `mode_SAXS`, `mode_WAXS` and `mode_OpenBeamPath` end in their target mode from any start |
| ModeChanges.PlanMovesIffNotInTarget | src/usaxs/plans/mode_changes.py:163-170 | a mode change runs a move plan (writes the mode) exactly when the instrument did not already report the target mode |
| ModeChanges.PlanRunsMovesInOrder | src/usaxs/plans/mode_changes.py:249-255 | when not already there, the change runs its three move plans in full and in the listed order (USAXS: WAXSOut, SAXSOut, USAXSIn; SAXS: WAXSOut, USAXSOut, SAXSIn; WAXS: SAXSOut, USAXSOut, WAXSIn; open beam path: SAXSOut, WAXSOut, USAXSOut) |
| ModeChanges.PlanClosesShutterFirst | src/usaxs/plans/mode_changes.py:150-157 | every mode change starts by announcing itself and, in its first move, commanding the USAXS shutter closed |
| ModeChanges.UsaxsThen | src/usaxs/plans/mode_changes.py:88-92 | `mode_USAXS` with steps around it that write no mode ends "USAXS in beam" |
| ModeChanges.ImagingEndsInUsaxsMode | src/usaxs/plans/mode_changes.py:412-426 | `mode_Imaging` begins with `mode_USAXS` and ends "USAXS in beam" |
| ModeChanges.DirectBeamEndsInUsaxsMode | src/usaxs/plans/mode_changes.py:88-92 | `mode_DirectBeam` begins with `mode_USAXS` and ends "USAXS in beam" |
| ModeChanges.RadiographyEndsInUsaxsMode | src/usaxs/plans/mode_changes.py:322-331 | `mode_Radiography` begins with `mode_USAXS` and ends "USAXS in beam" |
| ModeChanges.RadiographyTailOpensMonoIffReady | src/usaxs/plans/mode_changes.py:382-390 | the radiography set-up opens the mono shutter exactly when the e-beam is ready |
| ModeChanges.RadiographyOpensMonoShutterIffReady | src/usaxs/plans/mode_changes.py:322-390 | the whole radiography plan opens the mono shutter exactly when the e-beam is ready |
| ModeChanges.MonoShutterNotInUsaxsPlan | src/usaxs/plans/mode_changes.py:141-220 | `mode_USAXS` never opens the mono shutter |
| ModeChanges.FirstMovesAreOut | src/usaxs/plans/mode_changes.py:167-169 | the first two moves of every change are out-moves, and the last writes the target mode |
| ModeChanges.InTargetMode | src/usaxs/plans/mode_changes.py:163 | the check is true exactly when the mode is the change's target code |
| ModeChanges.RunMove | src/usaxs/plans/mode_changes.py:167-169 | one move plan issues its steps and leaves its final mode |
| ModeChanges.RunMoves | src/usaxs/plans/mode_changes.py:167-169 | the three moves issue their steps in order and leave the target mode |
| ModeChanges.ChangeMode | src/usaxs/plans/mode_changes.py:141-170 | the shared body of the four mode changes issues the change's plan and ends in its target mode |
| ModeChanges.ModeUSAXS | src/usaxs/plans/mode_changes.py:141-220 | `mode_USAXS` issues its plan and ends "USAXS in beam" |
| ModeChanges.ModeSBUSAXS | src/usaxs/plans/mode_changes.py:223 | `mode_SBUSAXS` is `mode_USAXS`: the same plan and the same final mode |
| ModeChanges.ModeSAXS | src/usaxs/plans/mode_changes.py:226-270 | `mode_SAXS` ends "SAXS in beam" |
| ModeChanges.ModeWAXS | src/usaxs/plans/mode_changes.py:273-319 | `mode_WAXS` ends "WAXS in beam" |
| ModeChanges.ModeOpenBeamPath | src/usaxs/plans/mode_changes.py:429-452 | `mode_OpenBeamPath` ends "out of beam" |
| ModeChanges.ModeImaging | src/usaxs/plans/mode_changes.py:412-426 | `mode_Imaging` ends "USAXS in beam" |
| ModeChanges.ModeDirectBeam | src/usaxs/plans/mode_changes.py:88-138 | `mode_DirectBeam` ends "USAXS in beam" |
| ModeChanges.ModeRadiography | src/usaxs/plans/mode_changes.py:322-409 | `mode_Radiography` ends "USAXS in beam" |
| LegacyModeChanges.PlanReachesTarget | instrument/plans/mode_changes.py:118-367 | each of the four legacy mode changes ends in its target mode from any start |
| LegacyModeChanges.PlanMovesIffNotInTarget | instrument/plans/mode_changes.py:129-136 | a legacy mode change writes the mode exactly when the instrument did not already report the target mode |
| LegacyModeChanges.PlanClosesBothShuttersFirst | instrument/plans/mode_changes.py:120-124 | the CCD and Ti filter shutters are closed before any motion or mode write |
| LegacyModeChanges.RetuneNeededIffMoved | instrument/plans/mode_changes.py:127-172 | `mode_USAXS` sets `terms.USAXS.retune_needed` exactly when it ran the out/in moves |
| LegacyModeChanges.UsaxsModeStateIffCcdClosed | instrument/plans/mode_changes.py:150-167 | `mode_USAXS` inserts the scan filters and reports "USAXS Mode" exactly when the CCD shutter reads closed |
| LegacyModeChanges.WaxsMovesDoNotResize | instrument/plans/mode_changes.py:216-224 | the moves of `mode_WAXS` resize no slits |
| LegacyModeChanges.WaxsTailResizes | instrument/plans/mode_changes.py:226-254 | the closing steps of `mode_WAXS` resize each slit pair exactly when its offset exceeds its threshold |
| LegacyModeChanges.WaxsSlitThresholds | instrument/plans/mode_changes.py:226-254 | `mode_WAXS` resizes the guard slits exactly when `max(v_diff, h_diff) > 0.03` and the USAXS slits exactly when theirs is `> 0.02` |
| LegacyModeChanges.UsaxsThen | instrument/plans/mode_changes.py:87-91 | `mode_USAXS` followed by steps that write no mode ends "USAXS in beam" |
| LegacyModeChanges.ImagingEndsInUsaxsMode | instrument/plans/mode_changes.py:341-348 | `mode_Imaging` ends "USAXS in beam" |
| LegacyModeChanges.BlackFlyEndsInUsaxsMode | instrument/plans/mode_changes.py:87-115 | `mode_BlackFly` ends "USAXS in beam" |
| LegacyModeChanges.RadiographyEndsInUsaxsMode | instrument/plans/mode_changes.py:267-338 | `mode_Radiography` ends "USAXS in beam" |
| LegacyModeChanges.ChangeMode | instrument/plans/mode_changes.py:118-367 | the shared body of the legacy mode changes issues its plan and ends in the target mode |
| LegacyModeChanges.ModeUSAXS | instrument/plans/mode_changes.py:118-173 | `mode_USAXS` ends "USAXS in beam" |
| LegacyModeChanges.ModeSBUSAXS | instrument/plans/mode_changes.py:176 | `mode_SBUSAXS` is `mode_USAXS` |
| LegacyModeChanges.ModeSAXS | instrument/plans/mode_changes.py:179-204 | `mode_SAXS` ends "SAXS in beam" via WAXSOut, USAXSOut, SAXSIn |
| LegacyModeChanges.ModeWAXS | instrument/plans/mode_changes.py:207-264 | `mode_WAXS` ends "WAXS in beam" via SAXSOut, USAXSOut, WAXSIn |
| LegacyModeChanges.ModeOpenBeamPath | instrument/plans/mode_changes.py:351-367 | `mode_OpenBeamPath` ends "out of beam" |
| LegacyModeChanges.ModeImaging | instrument/plans/mode_changes.py:341-348 | `mode_Imaging` ends "USAXS in beam" |
| LegacyModeChanges.ModeBlackFly | instrument/plans/mode_changes.py:87-115 | `mode_BlackFly` ends "USAXS in beam" |
| LegacyModeChanges.ModeRadiography | instrument/plans/mode_changes.py:267-338 | `mode_Radiography` ends "USAXS in beam" |
| CommandList.TextCommandsFailIff | src/usaxs/plans/command_list.py:402-412 | reading a text file fails exactly when some command line splits into no words |
| CommandList.TextCommandsInFileOrder | src/usaxs/plans/command_list.py:402-412 | every command comes from a line that is neither blank nor a comment after stripping, carries its 1-based line number and the line right-stripped, and the commands are in file order |
| CommandList.TextCommandsComplete | src/usaxs/plans/command_list.py:402-412 | every line that is neither blank nor a comment gives a command |
| CommandList.ParseTextCommandFile | src/usaxs/plans/command_list.py:350-412 | the loop over the lines returns the commands of the specification |
| CommandList.TrimTrailingBlanks | src/usaxs/plans/command_list.py:335-340 | the argument cells with the trailing None cells removed: a prefix, not ending in None, and only None cells were dropped |
| CommandList.TrimTrailing | src/usaxs/plans/command_list.py:335-340 | the trimming loop gives the trimmed cells |
| CommandList.ExcelCommandsFaithful | src/usaxs/plans/command_list.py:332-344 | every row becomes one command numbered index+1, first cell the action, the other cells with trailing Nones trimmed (interior Nones kept) the arguments, the whole row the raw command; reading fails exactly when a row has no cells |
| CommandList.ParseExcelCommandFile | src/usaxs/plans/command_list.py:298-347 | the loop over the rows returns the commands of the specification |
| CommandList.GetCommandList | src/usaxs/plans/command_list.py:428-437 | a missing file is an AssertionError; the commands all come from the spreadsheet or all from the text file |
| CommandList.GetCommandListFallsBack | src/usaxs/plans/command_list.py:433-436 | when the spreadsheet reader raises anything the text parser is used; an empty spreadsheet gives an empty list |
| CommandList.ScanPositionReads | src/usaxs/plans/command_list.py:197-206 | sx, sy and thickness are read exactly when the first three arguments are all numbers; otherwise the first failing conversion raises (IndexError for a missing argument, ValueError for text, TypeError for an empty cell) |
| CommandList.LimitViolations | src/usaxs/plans/command_list.py:207-230 | no violation exactly when sx and sy are within their travel limits; one violation per limit exceeded |
| CommandList.CommandProblemsCount | src/usaxs/plans/command_list.py:191-235 | only scan actions are checked (case-insensitively); an unreadable position gives one error and skips the limit checks (an empty cell's TypeError escapes); otherwise one error per limit violated, and a negative thickness is no error |
| CommandList.CheckedActionsAreText | src/usaxs/plans/command_list.py:192-193 | a list whose check completes has only text actions (`.lower()` on anything else raises) |
| CommandList.CheckCommand | src/usaxs/plans/command_list.py:191-235 | one pass of the check loop gives that command's contribution |
| CommandList.VerifyOutcome | src/usaxs/plans/command_list.py:237-242 | no exception exactly when the scan finds no error at all |
| CommandList.VerifyCommands | src/usaxs/plans/command_list.py:186-245 | the loop of `verify_commands` gives the outcome of the specification |
| CommandList.VerifyMessageAsWrittenLosesHeader | src/usaxs/plans/command_list.py:238-241 | as written, the two adjacent literals make the header the join separator: one error is reported without the header, two errors with the header between them |
| CommandList.VerifyMessageListsErrors | src/usaxs/plans/command_list.py:238-241 | the corrected message starts with the header and lists the errors back, one per line |
| CommandList.Truncate | src/usaxs/plans/command_list.py:736 | `int(f)` of a float truncates toward zero |
| CommandList.ConvertKeepsType | src/usaxs/plans/command_list.py:730-748 | the new value has the type of the old one; text terms accept any value; other types refuse an empty cell, and unsupported types refuse everything |
| CommandList.RunSetCommandWrites | src/usaxs/plans/command_list.py:679-764 | at most one write, only for exactly two arguments naming a `terms.` path whose every component exists and that ends at a Signal, and the value keeps that Signal's type; only a non-text term name raises |
| CommandList.SetIntegerTerm | src/usaxs/plans/command_list.py:734-736 | an integer term set from text reads it with `int()`, and from a spreadsheet float truncates toward zero |
| CommandList.RunPassesRecords | src/usaxs/plans/command_list.py:498-515 | every event belongs to a command already reached, and a start records that command's line and its action as written (not lower-cased) |
| CommandList.RunPassesInOrder | src/usaxs/plans/command_list.py:498-612 | commands start in list order, each at most once |
| CommandList.RunPassesStopsLast | src/usaxs/plans/command_list.py:577-615 | a stop (exception or RequestAbort) is the last event, so no later command runs; the list stopped exactly when there is one |
| CommandList.RunPassesStartsAll | src/usaxs/plans/command_list.py:498-615 | a list that has not stopped has started every command |
| CommandList.ExecuteBracketed | src/usaxs/plans/command_list.py:440-616 | an empty list runs nothing, not even the hooks; a list that fails the check raises before the first command; otherwise the run is bracketed by `before_command_list` and `after_command_list` |
| CommandList.StepIgnoresCase | src/usaxs/plans/command_list.py:516 | a command whose action differs only in letter case runs the same handler with the same outcome: the same exception, or the same events and stop, differing only in the action text recorded as written |
| CommandList.RunIgnoresCase | src/usaxs/plans/command_list.py:498-615 | two command lists that differ only in the case of their actions give the same run, up to the recorded action text |
| CommandList.UnknownActionRunsNothing | src/usaxs/plans/command_list.py:566-568 | an unrecognised action runs no plan |
| CommandList.RunCommand | src/usaxs/plans/command_list.py:577-612 | one pass of the loop body, a single attempt because MAXIMUM_ATTEMPTS is 1, gives that command's pass |
| CommandList.RunCommands | src/usaxs/plans/command_list.py:498-615 | the loop gives the events of the specification, stopping at the first stop |
| CommandList.ExecuteCommandList | src/usaxs/plans/command_list.py:440-616 | `execute_command_list` gives the outcome of the specification |
| CommandList.SyncOrderNumbers | src/usaxs/plans/command_list.py:620-642 | every order number is set to the maximum of the three |
| TuneScheduler.TuneDueIsStrict | src/usaxs/devices/general_terms.py:50-57 | both comparisons are strict: exactly the required number of scans, or exactly the required time, is not yet due; one scan more is |
| TuneScheduler.TuneDueMonotone | src/usaxs/devices/general_terms.py:50-57 | once due, a tune stays due as scans accumulate and time passes |
| TuneScheduler.NotDueAfterTune | src/usaxs/devices/general_terms.py:50-57 | right after a tune resets the counters, no tune is due exactly when neither requirement is negative |
| TuneScheduler.TuneTerms.Needed | src/usaxs/devices/general_terms.py:42-59 | `needed` answers the rule on the fields as read, then clears `run_tune_next` whatever the answer; nothing else changes |
| TuneScheduler.TuneTerms.AfterPlan | src/usaxs/plans/command_list.py:284-295 | `after_plan` advances the scan counter by `weight` and changes nothing else |
| TuneScheduler.TuneTerms.BeforePlan | src/usaxs/plans/command_list.py:267-280 | `before_plan` asks `needed` (so `run_tune_next` ends cleared) and, when due, runs `preUSAXStune` in "USAXS in beam" mode and `preSWAXStune` in any other; the scan counter and tune time are reset to 0 and `now` exactly when a USAXS-mode tune ran, and kept otherwise |
| TuneScheduler.UsaxsLabel | src/usaxs/plans/move_instrument.py:39-47 | the label `before_plan` compares with names mode 2 and no other |
| TuneScheduler.TunerDictionaries | src/usaxs/plans/plans_tune.py:244-256 | assigning the A stage entries twice neither duplicates nor reorders them: `allUSAXStune` tunes M, A, A2RP; `preUSAXStune` tunes A, A2RP (lines 134-135) |
| TuneScheduler.TuneLoop | src/usaxs/plans/plans_tune.py:138-153 | three steps per tuner |
| TuneScheduler.TuneHead | src/usaxs/plans/plans_tune.py:50-117 | the steps before the loop run no tune and end by opening the USAXS shutter |
| TuneScheduler.TuneTail | src/usaxs/plans/plans_tune.py:155-171 | the steps after the loop run no tune |
| TuneScheduler.TunesAppend | src/usaxs/plans/plans_tune.py:138-153 | the tunes of two step lists run one after the other |
| TuneScheduler.TuneLoopRunsEachOnce | src/usaxs/plans/plans_tune.py:138-153 | the loop runs each tuner's plan once, in dictionary order |
| TuneScheduler.TuneLoopOpensFirst | src/usaxs/plans/plans_tune.py:138-140 | in the loop every tune comes right after a shutter-open step |
| TuneScheduler.TuneStepsRun | src/usaxs/plans/plans_tune.py:50-174 | a tune plan runs each tuner's plan once, in dictionary order, and nothing else |
| TuneScheduler.ShutterOpenBeforeEveryTune | src/usaxs/plans/plans_tune.py:113-153 | every tune of a tune plan is immediately preceded by commanding the USAXS shutter open |
| TuneScheduler.PreTunesRun | src/usaxs/plans/plans_tune.py:119-153 | `preUSAXStune` tunes exactly A then A2RP, once each |
| TuneScheduler.AllTunesRun | src/usaxs/plans/plans_tune.py:240-274 | `allUSAXStune` tunes exactly M, A, A2RP, once each and in that order |
| TuneScheduler.TuneTerms.constructor | src/usaxs/devices/general_terms.py:29-40 | the tune terms start with the given counters and an empty trace |
| TuneScheduler.TuneTerms.IssueAll | src/usaxs/plans/plans_tune.py:50-174 | issuing steps appends them to the trace and changes no counter |
| TuneScheduler.TuneTerms.RunTuners | src/usaxs/plans/plans_tune.py:138-153 | the loop method appends the loop's steps and changes no counter |
| TuneScheduler.TuneTerms.TuneWith | src/usaxs/plans/plans_tune.py:50-174 | a tune plan appends its steps, resets the scan counter and the run-next flag, and stamps the last-tune time with `now` |
| TuneScheduler.TuneTerms.PreUSAXStune | src/usaxs/plans/plans_tune.py:50-174 | `preUSAXStune` runs its steps and leaves no tune due when neither requirement is negative |
| TuneScheduler.TuneTerms.AllUSAXStune | src/usaxs/plans/plans_tune.py:177-292 | `allUSAXStune` runs its steps and leaves no tune due when neither requirement is negative |
| TuneScheduler.TuneTerms.PreSWAXStune | src/usaxs/plans/plans_tune.py:299-390 | `preSWAXStune` only sets the state message: no tune and no counter reset |
| Amplifiers.GainToStr | src/usaxs/plans/amplifiers_plan.py:369-378 | a gain is shown as "10^" followed by an exponent that `int()` reads back as the gain |
| Amplifiers.OrderedDefaultDict.constructor | src/usaxs/plans/amplifiers_plan.py:381-393 | a new dictionary is empty and keeps its factory |
| Amplifiers.OrderedDefaultDict.Lookup | src/usaxs/plans/amplifiers_plan.py:395-407 | a present key reads its value and changes nothing; a missing key without a factory raises KeyError(key) and changes nothing; with a factory the factory's value is appended under the key and returned |
| Amplifiers.OrderedDefaultDict.Assign | src/usaxs/plans/amplifiers_plan.py:381-407 | assignment replaces a present key in place and appends a new one last |
| Amplifiers.OnScaler | src/usaxs/plans/amplifiers_plan.py:252-253 | the group of a scaler holds only controls of the input on that scaler |
| Amplifiers.ScalerNames | src/usaxs/plans/amplifiers_plan.py:252 | the key of each control is its scaler's name |
| Amplifiers.GroupedPartitions | src/usaxs/plans/amplifiers_plan.py:236-254 | the groups are keyed by scaler names in order of first appearance, and each group holds exactly the controls on its scaler, in input order |
| Amplifiers.ControlInOwnGroupOnly | src/usaxs/plans/amplifiers_plan.py:252-253 | each control is in the group of its own scaler and in no other |
| Amplifiers.GroupedMembers | src/usaxs/plans/amplifiers_plan.py:245-253 | grouping invents no control |
| Amplifiers.ControlsOf | src/usaxs/plans/amplifiers_plan.py:245-250 | the list is accepted exactly when every element is an amplifier control, and then unchanged |
| Amplifiers.NoneExtends | src/usaxs/plans/amplifiers_plan.py:245-250 | once an element that is not an amplifier has been met, the whole list is refused |
| Amplifiers.GroupControlsByScaler | src/usaxs/plans/amplifiers_plan.py:236-254 | the loop raises AssertionError for an argument that is not a list or for the first element that is not an amplifier, and otherwise returns the grouping |
| Amplifiers.AppendToGroup | src/usaxs/plans/amplifiers_plan.py:253 | appending a control to its scaler's group through the default dictionary |
| Amplifiers.LookupThenAssign | src/usaxs/plans/amplifiers_plan.py:253 | reading a missing key (which inserts an empty group) and then assigning it is the same as assigning it directly |
| Amplifiers.CheckOne | src/usaxs/plans/amplifiers_plan.py:189-205 | after a raise nothing more happens; otherwise the gain just read is recorded under the control's gain name |
| Amplifiers.CheckControlsReady | src/usaxs/plans/amplifiers_plan.py:189-205 | for well-formed controls a pass raises nothing, records every gain read, and succeeds exactly when each gain is unchanged and each rate is at most its maximum |
| Amplifiers.RecordedKeeps | src/usaxs/plans/amplifiers_plan.py:194 | with distinct gain names, recording the first gains leaves the others as they were |
| Amplifiers.RecordedHolds | src/usaxs/plans/amplifiers_plan.py:194 | after a full pass every gain name holds the gain just read |
| Amplifiers.SteadyUpToMeaning | src/usaxs/plans/amplifiers_plan.py:193-211 | the first controls are steady exactly when each gain equals the remembered one and each rate is within its maximum |
| Amplifiers.CheckControlsErrors | src/usaxs/plans/amplifiers_plan.py:189-205 | a pass raises only KeyError, RuntimeError or ValueError, never AutoscaleError |
| Amplifiers.AutoscaleLoop | src/usaxs/plans/amplifiers_plan.py:183-216 | the loop runs no iteration exactly when `max_iterations` is already reached, and then leaves the memory as it was, not complete and without error |
| Amplifiers.AutoscaleLoopErrors | src/usaxs/plans/amplifiers_plan.py:183-216 | the loop raises no AutoscaleError either |
| Amplifiers.AutoscaleLoopBounds | src/usaxs/plans/amplifiers_plan.py:183-216 | the scaler is triggered at most `max_iterations` times (never for a non-positive count); without convergence or raise every iteration ran; on convergence the last pass succeeded |
| Amplifiers.FirstSteadyLeast | src/usaxs/plans/amplifiers_plan.py:183-216 | the first steady iteration is the least one in range, or there is none |
| Amplifiers.AutoscaleLoopSteady | src/usaxs/plans/amplifiers_plan.py:183-216 | for a well-formed group the loop raises nothing, converges exactly at the first steady iteration (one trigger per iteration up to it), runs to `max_iterations` when none is steady, and leaves the gains of the last iteration in the memory |
| Amplifiers.AutoscaleLoopLastGains | src/usaxs/plans/amplifiers_plan.py:192-194 | at the end the memory holds the gains of the last iteration run |
| Amplifiers.PassRecords | src/usaxs/plans/amplifiers_plan.py:189-205 | one pass of a well-formed group raises nothing and leaves the gains just read in the memory |
| Amplifiers.PassSteady | src/usaxs/plans/amplifiers_plan.py:189-211 | one pass succeeds exactly when the iteration is steady |
| Amplifiers.AutoscaleLoopFirstSteady | src/usaxs/plans/amplifiers_plan.py:183-216 | the loop converges exactly when some iteration before `max_iterations` is steady, and stops at the first one |
| Amplifiers.CheckIteration | src/usaxs/plans/amplifiers_plan.py:189-205 | the inner loop gives the pass of the specification |
| Amplifiers.RunAutoscaleLoop | src/usaxs/plans/amplifiers_plan.py:183-216 | the outer loop gives the loop end of the specification |
| Amplifiers.AutoscaleVerdict | src/usaxs/plans/amplifiers_plan.py:228-233 | with `converged` bound, AutoscaleError is raised exactly when the loop did not converge, the APS is in user operations and the RunEngine is not idle |
| Amplifiers.AutoscaleVerdictAsWrittenRaisesWhenIdle | src/usaxs/plans/amplifiers_plan.py:183-233 | as written, `max_iterations=0` in user operations raises UnboundLocalError on `converged` whatever the RunEngine state: with an idle one where nothing is meant to be raised, with a busy one in place of AutoscaleError; for a positive count the code agrees with the intended verdict |
| Amplifiers.StartOne | src/usaxs/plans/amplifiers_plan.py:168-175 | each control's gain read before the iterations is remembered under its gain name |
| Amplifiers.StartGainsKeepOthers | src/usaxs/plans/amplifiers_plan.py:168-175 | the loop before the iterations changes only the controls' gain names |
| Amplifiers.StartGainsRemember | src/usaxs/plans/amplifiers_plan.py:168-175 | with distinct gain names, each control's starting reading is what the first iteration compares with |
| Amplifiers.StartGainsWrites | src/usaxs/plans/amplifiers_plan.py:171-173 | the gains written back are exactly those remembered from an earlier run, each for its own control |
| Amplifiers.StartGainsUnseen | src/usaxs/plans/amplifiers_plan.py:168-175 | before a control is reached its gain name still holds what the memory held |
| Amplifiers.StartOneWrites | src/usaxs/plans/amplifiers_plan.py:171-173 | one control's turn writes back at most its remembered gain |
| Amplifiers.WritesRememberedGrow | src/usaxs/plans/amplifiers_plan.py:171-173 | writes to the first controls remain writes when one more control is considered |
| Amplifiers.ScalerAutoscaleSpec | src/usaxs/plans/amplifiers_plan.py:127-233 | `_scaler_autoscale_` on one group; the set of scalers is kept, the rest is in the lemmas below |
| Amplifiers.ScalerAutoscaleRestores | src/usaxs/plans/amplifiers_plan.py:150-227 | the scaler settings are restored whenever the plan returns or raises its own AutoscaleError; a raise inside the loop leaves the one-shot settings; other scalers are untouched |
| Amplifiers.ScalerAutoscaleFrame | src/usaxs/plans/amplifiers_plan.py:127-233 | only the group's scaler and gain memory, the modes, the trigger count and the gain writes change, with at most `max_iterations` triggers |
| Amplifiers.WithModesKeeps | src/usaxs/plans/amplifiers_plan.py:213-214 | setting modes keeps an amplifier already in that mode in it |
| Amplifiers.WithModeSets | src/usaxs/plans/amplifiers_plan.py:213-214 | setting the controls' mode leaves every one of them in it |
| Amplifiers.ScalerAutoscaleConverges | src/usaxs/plans/amplifiers_plan.py:183-216 | when some iteration is steady the plan triggers once per iteration up to the first one, sets every amplifier manual and raises nothing |
| Amplifiers.ScalerAutoscaleGivesUp | src/usaxs/plans/amplifiers_plan.py:183-233 | otherwise it triggers `max_iterations` times, leaves the amplifiers automatic, and raises AutoscaleError exactly in user operations with a busy RunEngine |
| Amplifiers.ScalerAutoscaleRemembers | src/usaxs/plans/amplifiers_plan.py:165-194 | the gain memory ends with the gains of the last iteration run (the starting readings when none ran) |
| AmplifierPlans.AutoscaleGroup | src/usaxs/plans/amplifiers_plan.py:103-124 | one group's turn (an empty group skipped, any exception logged and swallowed); its contract states only that the set of scalers is kept, the rest is in the lemmas below |
| AmplifierPlans.AutoscaleGroups | src/usaxs/plans/amplifiers_plan.py:103-124 | the groups autoscaled in turn; the set of scalers is kept |
| AmplifierPlans.GroupsKnown | src/usaxs/plans/amplifiers_plan.py:236-254 | every group of a grouped argument is on a known scaler |
| AmplifierPlans.AutoscaleAmplifiersSpec | src/usaxs/plans/amplifiers_plan.py:67-124 | `autoscale_amplifiers` from a station state; the set of scalers is kept, the rest is in the lemmas below |
| AmplifierPlans.AutoscaleAmplifiersCatches | src/usaxs/plans/amplifiers_plan.py:67-124 | it raises only for a missing RunEngine or an argument that does not group; otherwise the shutter is opened once when given, the log has at most one entry per group, a warning exactly for an AutoscaleError, and the triggers are bounded |
| AmplifierPlans.AutoscaleGroupLog | src/usaxs/plans/amplifiers_plan.py:103-124 | one group's turn adds at most one log entry |
| AmplifierPlans.AutoscaleGroupsLog | src/usaxs/plans/amplifiers_plan.py:103-124 | the groups' turns add at most one log entry each |
| AmplifierPlans.AutoscaleGroupRestore | src/usaxs/plans/amplifiers_plan.py:103-124 | a group's turn that logs only warnings leaves the scaler settings as they were |
| AmplifierPlans.AutoscaleGroupsRestore | src/usaxs/plans/amplifiers_plan.py:103-124 | every scaler's settings are back unless some group raised something other than AutoscaleError |
| AmplifierPlans.AutoscaleAmplifiersRestores | src/usaxs/plans/amplifiers_plan.py:67-124 | a run that logged only warnings leaves every scaler's settings as they were |
| AmplifierPlans.Block | src/usaxs/plans/amplifiers_plan.py:278-279 | one gain range is set on every control, in order |
| AmplifierPlans.SweepLength | src/usaxs/plans/amplifiers_plan.py:275-279 | the sweep makes one write per control and range |
| AmplifierPlans.SweepWithin | src/usaxs/plans/amplifiers_plan.py:275-279 | the sweep sets only the group's controls, to ranges in range |
| AmplifierPlans.DescendingAppend | src/usaxs/plans/amplifiers_plan.py:275 | a descending run followed by a lower block stays descending |
| AmplifierPlans.SweepDescending | src/usaxs/plans/amplifiers_plan.py:275 | the ranges are visited from the highest down |
| AmplifierPlans.SweepCovers | src/usaxs/plans/amplifiers_plan.py:275-279 | every control is set to every range |
| AmplifierPlans.BackgroundSweep | src/usaxs/plans/amplifiers_plan.py:275-323 | the range loop sets every control to every range from the highest down and triggers the scaler `num_readings` times per range (none for a non-positive count) |
| AmplifierPlans.ScalerBackgroundSpec | src/usaxs/plans/amplifiers_plan.py:257-333 | `_scaler_background_measurement_` on one group; the set of scalers is kept, the rest is in the lemmas below |
| AmplifierPlans.ScalerBackgroundRestores | src/usaxs/plans/amplifiers_plan.py:268-333 | the scaler settings come back and every amplifier of the group is left manual |
| AmplifierPlans.ScalerBackgroundWrites | src/usaxs/plans/amplifiers_plan.py:275-323 | the backgrounds are written range by range from the highest down, for every control and range |
| AmplifierPlans.BackgroundGroup | src/usaxs/plans/amplifiers_plan.py:349-356 | one group's background (an empty group skipped); the set of scalers is kept |
| AmplifierPlans.BackgroundGroups | src/usaxs/plans/amplifiers_plan.py:349-356 | the groups measured in turn; the set of scalers is kept |
| AmplifierPlans.MeasureBackgroundSpec | src/usaxs/plans/amplifiers_plan.py:336-356 | `measure_background` (nothing is caught); the set of scalers is kept, the rest is in the lemmas below |
| AmplifierPlans.BackgroundGroupsRestore | src/usaxs/plans/amplifiers_plan.py:349-356 | after the groups the scaler settings are as they were |
| AmplifierPlans.BackgroundGroupsModes | src/usaxs/plans/amplifiers_plan.py:349-356 | the groups change the modes only to manual |
| AmplifierPlans.ManualAfterGroups | src/usaxs/plans/amplifiers_plan.py:349-356 | after the groups every amplifier of them is manual |
| AmplifierPlans.ModesStayManual | src/usaxs/plans/amplifiers_plan.py:349-356 | switching more amplifiers to manual keeps the manual ones manual |
| AmplifierPlans.MeasureBackgroundRestores | src/usaxs/plans/amplifiers_plan.py:336-356 | it raises only when the argument does not group; otherwise the shutter is closed once when given, the scaler settings are as they were and every amplifier is left manual |
| ReadableTime.Decompose | src/usaxs/devices/linkam.py:194-207 | the five parts recompose to the duration, with either way of dividing |
| ReadableTime.DecomposeBounds | src/usaxs/devices/linkam.py:194-207 | for a non-negative duration every part below weeks is within its unit's range; below zero, truncation gives parts in the ranges mirrored around zero, and floor division keeps hours, minutes and seconds non-negative |
| ReadableTime.DecomposeAgree | user/heater_profile.py:65-78 | on non-negative durations truncating and floor division decompose alike |
| ReadableTime.CopiesAgree | src/usaxs/devices/linkam.py:184-210 | on non-negative durations the heater script's copy and the device's copy give the same text |
| ReadableTime.CopiesDifferBelowZero | user/heater_profile.py:65-78 | below zero the two copies differ: -5 s is "-5s" in one and "-1d 23h 59m 55s" in the other |
| ReadableTime.TruncatingBelowZero | user/heater_profile.py:65-78 | with truncation -5 s decomposes to -5 seconds |
| ReadableTime.TruncatingUnderAMinute | user/heater_profile.py:65-78 | with truncation any duration shorter than a minute either way is all seconds |
| ReadableTime.FlooringBelowZero | src/usaxs/devices/linkam.py:194-207 | with floor division -5 s decomposes to -1 day, 23 h, 59 min, 55 s |
| ReadableTime.NonZero | src/usaxs/devices/linkam.py:209 | only non-zero terms are kept, all taken from the input |
| ReadableTime.NonZeroSeconds | src/usaxs/devices/linkam.py:209 | dropping zero terms does not change the seconds they add up to |
| ReadableTime.NonZeroLargestFirst | src/usaxs/devices/linkam.py:208-209 | dropping zero terms keeps the largest-unit-first order |
| ReadableTime.NonZeroComplete | src/usaxs/devices/linkam.py:209 | every non-zero term is kept |
| ReadableTime.FormatTerms | src/usaxs/devices/linkam.py:209 | one piece of text per term |
| ReadableTime.FormatTermShape | src/usaxs/devices/linkam.py:209 | each piece of text is non-empty and has no space, so the join can be split back |
| ReadableTime.ParseFormatTerm | src/usaxs/devices/linkam.py:209 | a term's text reads back as the term |
| ReadableTime.ParseFormatTerms | src/usaxs/devices/linkam.py:209 | a list of terms' texts reads back as the list |
| ReadableTime.TermsShape | src/usaxs/devices/linkam.py:208-209 | the terms shown are the non-zero parts, in the order w, d, h, m, s |
| ReadableTime.TermsTotal | src/usaxs/devices/linkam.py:208-209 | the terms shown add up to the parts' total |
| ReadableTime.TermsRoundTrip | src/usaxs/devices/linkam.py:209-210 | the space-joined text of a non-empty list of terms reads back as their total |
| ReadableTime.PartsRoundTrip | src/usaxs/devices/linkam.py:207-210 | the text of any parts reads back as their total |
| ReadableTime.ReadableTimeRoundTrip | src/usaxs/devices/linkam.py:184-210 | reading the text back gives the duration, for every integer duration and either copy |
| ReadableTime.ReadableTimeEmpty | src/usaxs/devices/linkam.py:184-210 | the text is empty exactly for a zero duration |
| ReadableTime.ZeroText | src/usaxs/devices/linkam.py:209-210 | a zero duration gives the empty text |
| ReadableTime.UnderADay | src/usaxs/devices/linkam.py:194-207 | under a day there are no weeks or days, and hours, minutes and seconds are the usual quotients and remainders |
| ReadableTime.Example425 | src/usaxs/devices/linkam.py:188 | 425 s is "7m 5s" |
| ReadableTime.Example1425 | src/usaxs/devices/linkam.py:189 | 1425 s is "23m 45s" |
| ReadableTime.Example21425 | src/usaxs/devices/linkam.py:190 | 21425 s is "5h 57m 5s" |
| ReadableTime.Example360 | src/usaxs/devices/linkam.py:191 | 360 s is "6m" |
| ReadableTime.QuotNonNegative | src/usaxs/devices/linkam.py:194-204 | on a non-negative duration, truncating and flooring division give the same quotient |
| ReadableTime.FormatSmall | src/usaxs/devices/linkam.py:209 | a part below 100 is written as its one or two digits followed by its unit letter |
| ReadableTime.Example425Terms | src/usaxs/devices/linkam.py:207-209 | the parts of 425 s that are kept are 7 minutes and 5 seconds, in that order |
| ReadableTime.Example425Text | src/usaxs/devices/linkam.py:209-210 | those parts are written "7m 5s" |
| ReadableTime.Example1425Terms | src/usaxs/devices/linkam.py:207-209 | the parts of 1425 s that are kept are 23 minutes and 45 seconds |
| ReadableTime.Example1425Text | src/usaxs/devices/linkam.py:209-210 | those parts are written "23m 45s" |
| ReadableTime.Example21425Terms | src/usaxs/devices/linkam.py:207-209 | the parts of 21425 s that are kept are 5 hours, 57 minutes and 5 seconds |
| ReadableTime.Example21425Text | src/usaxs/devices/linkam.py:209-210 | those parts are written "5h 57m 5s" |
| ReadableTime.Example360Terms | src/usaxs/devices/linkam.py:207-209 | the only part of 360 s that is kept is 6 minutes: the zero seconds are dropped |
| ReadableTime.Example360Text | src/usaxs/devices/linkam.py:209-210 | that part is written "6m" |
| Linkam.LinkamT96.constructor | src/usaxs/devices/linkam.py:279-286 | the device starts with the given setpoint, actuation and ramp rate, a tolerance of one degree and no steps |
| Linkam.LinkamT96.Ramp | src/usaxs/devices/linkam.py:294-299 | `ramp` is the ramp rate |
| Linkam.LinkamT96.SetTarget | src/usaxs/devices/linkam.py:241-268 | the setpoint becomes the value and the heater is actuated "On"; the ramp rate and tolerance stay; the plan's steps are appended |
| Linkam.SetTargetPlan | src/usaxs/devices/linkam.py:251-266 | one move writing the setpoint and "On"; without `wait` nothing else, with it one 0.1 s sleep per poll until in position |
| Linkam.SetTargetActuatesOnce | src/usaxs/devices/linkam.py:251-266 | the heater is switched on in the first step and every later step is a sleep |
| Linkam.LinkamT96.Hold | src/usaxs/devices/linkam.py:270-277 | `hold` only sleeps 0.5 s per poll until the expiry time; nothing on the device changes |
| Linkam.Polls | src/usaxs/devices/linkam.py:275-276 | n sleeps of the poll interval |
| Filters.TruncToInt | instrument/plans/filters.py:29 | `int()` of a float: the integer within one of it, of the same sign and never farther from zero |
| Filters.TruncToIntWhole | instrument/plans/filters.py:29 | a whole number survives `int()` unchanged |
| Filters.InsertFilters | instrument/plans/filters.py:27-30 | `_insertFilters_` writes one filter position, the setting truncated toward zero as Python's `int()` does (within one unit of the setting, never farther from zero), then sleeps half a second for the blades |
| Filters.InsertFiltersWhole | instrument/plans/filters.py:27-30 | a whole-number setting reaches the filter box exactly |
| Filters.InsertForIgnoresTi | instrument/plans/filters.py:33-70 | each insert plan sends only its own Al setting: the Ti settings and other plans' settings do not matter |
| Filters.TransmissionFilters | instrument/plans/filters.py:73-82 | 3 filters below 12.1 keV, 15 from 18.1 keV up, 7 between |
| Filters.TransmissionFiltersMonotone | instrument/plans/filters.py:73-82 | a higher energy never selects fewer filters |
| Filters.InsertTransmissionFilters | instrument/plans/filters.py:73-83 | the chosen whole number reaches the filter box exactly |
| Slits.SetSize | src/usaxs/devices/slits.py:83-93 | a missing horizontal size raises first, then a missing vertical one; otherwise both sizes move together |
| Slits.GapOkInterval | src/usaxs/devices/slits.py:96-107 | each gap lies within 0.02 of its requested size, on both axes |
| Slits.GapOkShift | src/usaxs/devices/slits.py:96-107 | moving opposite blades together keeps the gap, and so the verdict |
| Slits.ProcessMotorRecords | src/usaxs/devices/slits.py:109-115 | six steps with a 0.05 s pause after each pair |
| Slits.ProcessEachOnce | src/usaxs/devices/slits.py:109-115 | each blade's record is processed exactly once |
| AreaDetectorCommon.PathMessage | src/usaxs/devices/area_detector_common.py:54-56 | the message starts by naming the module's file |
| AreaDetectorCommon.ValidatePath | src/usaxs/devices/area_detector_common.py:52-56 | a path is rejected exactly when it does not start with the root, with a ValueError naming the module's file |
| AreaDetectorCommon.PathMessageEnds | instrument/devices/area_detector_common.py:65-70 | the older copy's message ends with the root itself, without the closing quote the current copy has |
| AreaDetectorCommon.WithSeparator | src/usaxs/devices/area_detector_common.py:89-93 | the write path always ends in a separator: one already there is kept, otherwise a backslash when the path has one and a slash when not |
| AreaDetectorCommon.WithSeparatorIdempotent | src/usaxs/devices/area_detector_common.py:89-93 | separating twice is separating once, and a path without backslashes never gets one |
| AreaDetectorCommon.PrecisionDigits | src/usaxs/plans/scans.py:48 | `%4.4d` gives at least four digits for a non-negative number |
| AreaDetectorCommon.Format | src/usaxs/devices/area_detector_common.py:112-113 | `template % args` succeeds exactly when the arguments fit the template, and raises TypeError otherwise |
| AreaDetectorCommon.AdTemplateName | src/usaxs/plans/scans.py:48 | with the `%s%s_%4.4d.hdf` template the full name is read path, file name, "_", the number in at least four digits, ".hdf" |
| AreaDetectorCommon.Hdf5Writer.constructor | src/usaxs/devices/area_detector_common.py:67-72 | a writer starts with the given file number, template and path flag, capture off and empty names |
| AreaDetectorCommon.Hdf5Writer.Stage | src/usaxs/devices/area_detector_common.py:73-123 | capture is turned off, the separated write path and the file name are written, the full name uses the file number from before staging; a template that does not fit raises TypeError; a path missing on the IOC raises IOError naming it |
| AreaDetectorCommon.PrimedIff | src/usaxs/devices/area_detector_common.py:163-188 | a plugin is primed exactly when both image sizes are non-zero, the sizes match and the colour modes match |
| AreaDetectorCommon.PrimeSig | src/usaxs/devices/area_detector_common.py:197-208 | the k-th signal of the priming list |
| AreaDetectorCommon.SigIndex | src/usaxs/devices/area_detector_common.py:197-208 | each signal has a position in the priming list |
| AreaDetectorCommon.SigIndexInverse | src/usaxs/devices/area_detector_common.py:197-208 | position and signal are inverse to each other, so the list names each signal once |
| AreaDetectorCommon.Priming | src/usaxs/devices/area_detector_common.py:212-215 | every listed signal is set to its priming value, in list order |
| AreaDetectorCommon.Restoring | src/usaxs/devices/area_detector_common.py:220-223 | the signals are set back to their saved values in reverse order |
| AreaDetectorCommon.PluginSignals.constructor | src/usaxs/devices/area_detector_common.py:191-210 | the signals start with the given values and no writes |
| AreaDetectorCommon.PluginSignals.PrimePlugin | src/usaxs/devices/area_detector_common.py:191-223 | nothing is written when the plugin is primed; otherwise every signal is set in order and then set back in reverse order, so every signal ends with its original value |
| AreaDetectorCommon.PluginSignals.SetAll | src/usaxs/devices/area_detector_common.py:212-215 | every signal ends at its priming value, written in list order |
| AreaDetectorCommon.PluginSignals.RestoreAll | src/usaxs/devices/area_detector_common.py:220-223 | every signal ends at its saved value, written in reverse order |
| AreaDetectorCommon.RestoreMirrorsPriming | src/usaxs/devices/area_detector_common.py:210-223 | the signal set i-th is restored at the mirrored position, to the value saved before priming |
| AreaDetectorPaths.AllAreaDetectors | src/usaxs/utils/area_detector.py:12-19 | only detectors are yielded, all from the registry |
| AreaDetectorPaths.AllAreaDetectorsMembers | src/usaxs/utils/area_detector.py:12-19 | an entry is yielded exactly when it is in the registry and is a detector |
| AreaDetectorPaths.AllAreaDetectorsAppend | src/usaxs/utils/area_detector.py:14-19 | registry order is kept |
| AreaDetectorPaths.FilePlugins | src/usaxs/utils/area_detector.py:22-29 | only file plugins are yielded, all components of the detector |
| AreaDetectorPaths.FilePluginsMembers | src/usaxs/utils/area_detector.py:22-29 | a component is yielded exactly when it is one of the detector's file plugins |
| AreaDetectorPaths.FilePluginsAppend | src/usaxs/utils/area_detector.py:24-29 | declaration order is kept |
| AreaDetectorPaths.IndexOf | src/usaxs/utils/area_detector.py:44 | `parts.index`: the first position holding the name |
| AreaDetectorPaths.FilePlugin.constructor | src/usaxs/utils/area_detector.py:32-46 | a plugin starts with the given path templates |
| AreaDetectorPaths.FilePlugin.PathTemplateFixer | src/usaxs/utils/area_detector.py:32-46 | nothing changes unless "USAXS_data" is a component of the IOC path; then the write template is that path and the read template is "/share1" followed by the components from the first "USAXS_data" on |
| AreaDetectorPaths.ReadTemplateParts | src/usaxs/utils/area_detector.py:41-46 | the rewritten read template, read back as a path, is "/", "share1" and exactly the IOC path's components from "USAXS_data" on |
| AreaDetectorPaths.RestNames | src/usaxs/utils/area_detector.py:45-46 | a read template built from plain names reads back as "/", "share1" and those names |
| DataDirs.ReplaceDoubleSpaces | src/usaxs/utils/utils.py:77 | replacing pairs of spaces never lengthens the text |
| DataDirs.ReplaceKeepsSingleSpaces | src/usaxs/utils/utils.py:77 | text without a double space is kept as it is, single spaces included |
| DataDirs.ReplaceRemovesDoubleSpaces | src/usaxs/utils/utils.py:77 | no double space survives, and the only new character is '_' |
| DataDirs.FirstKept | src/usaxs/utils/utils.py:77 | the first character of text not starting with a space is kept |
| DataDirs.SampleFolder | src/usaxs/utils/utils.py:75-77 | the sample folder is never empty ("sample" stands in for a blank name) and has no double space |
| DataDirs.GetDataDir | src/usaxs/utils/utils.py:36-45 | the user directory is returned as text exactly when it exists; otherwise FileNotFoundError |
| DataDirs.TechniqueSubdirectory | src/usaxs/utils/utils.py:48-89 | the user directory must exist; the sample and technique directories are created with their parents (an existing directory is fine) and the technique directory's resolved path is returned; files are untouched; a second call with the same inputs succeeds again |
| DataDirs.SimpleNameParts | src/usaxs/utils/utils.py:80 | a plain name is one path component |
| DataDirs.TechniquePathShape | src/usaxs/utils/utils.py:79-85 | for plain names the technique directory is `<user dir>/<sample>/<sample>_<technique>` |
| Obsidian.MonthFolder | src/usaxs/utils/obsidian.py:59-62 | the month folder is the vault, then the "YYYY-MM" name, then "Instrument_Records" |
| Obsidian.NormNamesNormal | src/usaxs/utils/obsidian.py:80 | the names `os.path.normpath` keeps are names of the path, with no empty name or ".", and ".." only in a leading run that only a relative path keeps |
| Obsidian.NormNamesOfNormal | src/usaxs/utils/obsidian.py:80 | names already in that form are kept as they are, so normalising twice is normalising once |
| Obsidian.LastFolderName | src/usaxs/utils/obsidian.py:80 | the note's base name is the last name left by `normpath`, "" for the root and "." for an empty path, and never holds a slash |
| Obsidian.LastFolderNameOfChild | src/usaxs/utils/obsidian.py:76-80 | a user directory ending in a plain name gives that name |
| Obsidian.LastFolderNameTrailingSlash | src/usaxs/utils/obsidian.py:80 | a trailing slash does not change the name |
| Obsidian.LastFolderNameFoldsParent | src/usaxs/utils/obsidian.py:80 | a trailing "x/.." is folded away, so the name is that of the directory above |
| Obsidian.LastFolderNameExample | src/usaxs/utils/obsidian.py:77-81 | "/share1/USAXS_data/2026-01/1_14_setup" gives "1_14_setup" |
| Obsidian.LastFolderNameFoldsExample | src/usaxs/utils/obsidian.py:80 | "/share1/USAXS_data/2026-01/run/.." gives "2026-01" |
| Obsidian.NotePath | src/usaxs/utils/obsidian.py:80-83 | the note lies directly in the month folder and is named after the user directory's last folder plus ".md" |
| Obsidian.MonthFolderMade | src/usaxs/utils/obsidian.py:57-71 | an existing month folder (directory or file, as `exists()` says) is returned untouched; a missing one is made with its parents, unless a file is in the way, which raises NotADirectoryError; no file changes |
| Obsidian.CreateMonthFolder | src/usaxs/utils/obsidian.py:57-71 | the file system and the result afterwards are those of `MonthFolderOn`, whose outcomes `MonthFolderMade` states |
| Obsidian.NoteBlocked | src/usaxs/utils/obsidian.py:83 | the note's directory is the month folder, so a file lies on the way to the note exactly when the month folder is a file or a file lies on the way to it |
| Obsidian.CreateMdFileFails | src/usaxs/utils/obsidian.py:73-93 | `createMdFile` raises exactly when a file lies on the way to the note and the note is not already there under an existing month folder; a file at the month-folder path raises NotADirectoryError naming the note; a failure changes nothing |
| Obsidian.CreateMdFileWrites | src/usaxs/utils/obsidian.py:73-93 | on success the note exists; an existing note is left as it is, a new one holds just the two header lines; no other file changes and the only new directories are the month folder and those above it |
| Obsidian.CreateMdFile | src/usaxs/utils/obsidian.py:73-93 | the result and the file system afterwards are those of `CreateMdFileOn`, whose outcomes `CreateMdFileFails` and `CreateMdFileWrites` state |
| Obsidian.AppendToMdFileFails | src/usaxs/utils/obsidian.py:95-101 | appending raises exactly when a file lies on the way to the note or the note is a directory; a file at the month-folder path raises NotADirectoryError naming the note |
| Obsidian.AppendToMdFileAppends | src/usaxs/utils/obsidian.py:95-101 | on success the note gains the text and a newline at its end, after its earlier content (staff notes included) or after the header of a new note; no other file changes |
| Obsidian.AppendToMdFile | src/usaxs/utils/obsidian.py:95-101 | the result and the file system afterwards are those of `AppendToMdFileOn`, whose outcomes `AppendToMdFileFails` and `AppendToMdFileAppends` state |
| Obsidian.Appended | src/usaxs/utils/obsidian.py:95-101 | appends never shorten a note |
| Obsidian.AppendedPrefix | src/usaxs/utils/obsidian.py:95-101 | after any number of appends the old note is a prefix of the new one |
| CamonitorLog.NextDay | user/NotTested/analyze_camonitor_log.py:35-36 | the next calendar day of a valid date is valid |
| CamonitorLog.YearStartNext | user/NotTested/analyze_camonitor_log.py:36 | a year starts right after the previous year's days |
| CamonitorLog.DaysBeforeDecember | user/NotTested/analyze_camonitor_log.py:36 | the months add up to the year's length |
| CamonitorLog.EpochDayNext | user/NotTested/analyze_camonitor_log.py:36 | `calendar.timegm` counts days without gaps or overlaps: the next calendar day, across month and year ends and leap days, is the next day number |
| CamonitorLog.EpochStart | user/NotTested/analyze_camonitor_log.py:36 | 1970-01-01 00:00:00 is second zero |
| CamonitorLog.Fixed | user/NotTested/analyze_camonitor_log.py:35 | a fixed-width number field has exactly its width |
| CamonitorLog.ParseDate | user/NotTested/analyze_camonitor_log.py:35 | only real calendar dates are accepted |
| CamonitorLog.TimeOf | user/NotTested/analyze_camonitor_log.py:35 | only real times of day are accepted |
| CamonitorLog.ParseTime | user/NotTested/analyze_camonitor_log.py:35 | only the extended forms `HH`, `HH:MM` and `HH:MM:SS` of a real time of day are accepted |
| CamonitorLog.Digits | user/NotTested/analyze_camonitor_log.py:35 | zero-padded digits fill exactly their width |
| CamonitorLog.DigitsValueOfDigits | user/NotTested/analyze_camonitor_log.py:35 | a number that fits reads back from its digits |
| CamonitorLog.FixedDigits | user/NotTested/analyze_camonitor_log.py:35 | a number that fits reads back from its fixed-width field |
| CamonitorLog.ParseShowDate | user/NotTested/analyze_camonitor_log.py:35 | every valid date reads back as itself |
| CamonitorLog.ParseShowTime | user/NotTested/analyze_camonitor_log.py:35 | every valid time of day reads back as itself |
| CamonitorLog.ParseShortTimes | user/NotTested/analyze_camonitor_log.py:35 | `HH` and `HH:MM` read as the time with the missing minutes and seconds zero |
| CamonitorLog.FromIsoFormat | user/NotTested/analyze_camonitor_log.py:35 | in its extended forms, `fromisoformat` succeeds exactly when both the date and the time are valid, and raises ValueError otherwise |
| CamonitorLog.ParseLine | user/NotTested/analyze_camonitor_log.py:29-37 | a line without exactly four tokens is skipped; a time token without exactly one "." raises an unpacking error; otherwise the event has the PV, the UTC epoch seconds plus micros / 1e6, and the value text |
| CamonitorLog.EventsOf | user/NotTested/analyze_camonitor_log.py:37 | a PV's list holds only its own events |
| CamonitorLog.GroupContents | user/NotTested/analyze_camonitor_log.py:27-37 | every PV's list holds exactly its events in file order, a PV without events has no entry, and the PVs come in order of their first event |
| CamonitorLog.EventsOfAbsent | user/NotTested/analyze_camonitor_log.py:37 | a PV that never occurs has no events |
| CamonitorLog.ReadLogs | user/NotTested/analyze_camonitor_log.py:24-39 | the loop parses each line in turn and groups the events; the first line that raises ends the reading with its error |
| CamonitorLog.ParseAllStops | user/NotTested/analyze_camonitor_log.py:28-37 | once a line raised, later lines change nothing |
| NexusStructure.IsTrue | src/usaxs/usaxs_flyscan_support/nexus_flyscan.py:481 | a flag is true exactly when its lower-cased text is "t" or "true" |
| NexusStructure.IsTrueExamples | src/usaxs/usaxs_flyscan_support/nexus_flyscan.py:486-487 | the flags are case-blind; "yes", "1" and the default "false" read false |
| NexusStructure.ChildPath | src/usaxs/usaxs_flyscan_support/nexus_flyscan.py:352-356 | a child group's path is the parent path, a slash unless the parent already ends in one, and the name |
| NexusStructure.Attached | src/usaxs/usaxs_flyscan_support/nexus_flyscan.py:302 | a field, PV or link path is the parent path, "/", the name, with no normalisation |
| NexusStructure.ChildPathNoDoubleSlash | src/usaxs/usaxs_flyscan_support/nexus_flyscan.py:352-356 | joining a group path to a child name never makes "//" |
| NexusStructure.AttachedUnderRoot | src/usaxs/usaxs_flyscan_support/nexus_flyscan.py:302 | a field, PV or link directly under the root gets a path starting "//", a group does not |
| NexusStructure.BelowIrreflexive | src/usaxs/usaxs_support/saveFlyData.py:259 | `sorted` on paths compares code points: no path sorts before itself |
| NexusStructure.BelowAsymmetric | src/usaxs/usaxs_support/saveFlyData.py:259 | two paths never sort before each other |
| NexusStructure.BelowTotal | src/usaxs/usaxs_support/saveFlyData.py:259 | any two different paths are ordered |
| NexusStructure.BelowTransitive | src/usaxs/usaxs_support/saveFlyData.py:259 | the path order is transitive |
| NexusStructure.PrefixBelow | src/usaxs/usaxs_support/saveFlyData.py:259 | a proper prefix sorts first |
| NexusStructure.ChildPathBelow | src/usaxs/usaxs_support/saveFlyData.py:259-277 | a child group's path sorts after its parent's, so sorted creation makes parents first |
| NexusStructure.GroupFor | src/usaxs/usaxs_flyscan_support/nexus_flyscan.py:272-277 | `getGroupObjectByXmlNode` finds a registered group made from the element, or none when there is none |
| NexusStructure.AddGroup | src/usaxs/usaxs_flyscan_support/nexus_flyscan.py:368-376 | a group is added exactly when its path is new, keeping every other entry; a taken path raises RuntimeError with the duplicate-path message |
| NexusStructure.GroupPlacement | src/usaxs/usaxs_flyscan_support/nexus_flyscan.py:349-366 | a group inside NX_structure is the root "/"; one inside a known group is placed under the parent's path; any other placement fails |
| NexusStructure.RegisterGroup | src/usaxs/usaxs_flyscan_support/nexus_flyscan.py:333-376 | a registered group has its name, class, path and parent; a path already registered raises RuntimeError |
| NexusStructure.RegisterField | src/usaxs/usaxs_flyscan_support/nexus_flyscan.py:288-309 | a field registers exactly when it has a name and a known parent group, under the parent path plus its name |
| NexusStructure.AbsoluteLimit | src/usaxs/usaxs_flyscan_support/nexus_flyscan.py:495-499 | an absolute length limit is kept, a relative one is put under the parent group |
| NexusStructure.AbsoluteLimitIsAbsolute | src/usaxs/usaxs_flyscan_support/nexus_flyscan.py:495-499 | the length limit is absolute whenever the parent path is |
| NexusStructure.MakePv | src/usaxs/usaxs_flyscan_support/nexus_flyscan.py:467-505 | a PV's path is its parent's path plus its label; the string and acquire-after-scan flags are the case-blind "t"/"true" tests with default "false"; the length limit is absent or made absolute; no signal yet |
| NexusStructure.RegisterPv | src/usaxs/usaxs_flyscan_support/nexus_flyscan.py:467-505 | a PV registers exactly when it has a label, a PV name and a known parent group and its label is not used yet, then under its own path; a used label raises RuntimeError with the source's message; as written a label counts as used when it is a registry key, with the intended check (the one the manager uses) when its path is, so a registration only appends |
| NexusStructure.RegisterLink | src/usaxs/usaxs_flyscan_support/nexus_flyscan.py:400-421 | a link registers exactly when it has a name, a source, link type "NeXus" and a known parent, and is then found at its path; any other link type raises AttributeError as written (the message reads the path before it is set) and the RuntimeError of LinkTypeCheck with the intended check |
| NexusStructure.LinkTypeCheck | src/usaxs/usaxs_flyscan_support/nexus_flyscan.py:411-414 | the intended check: a link type other than "NeXus" raises RuntimeError naming the link's path |
| NexusStructure.RegisterFromStep | src/usaxs/usaxs_flyscan_support/nexus_flyscan.py:164-175 | a registration pass skips other tags, stops at the first error with the registries as they were, and otherwise continues with the new entry |
| NexusStructure.ParentGroupRegistered | src/usaxs/usaxs_flyscan_support/nexus_flyscan.py:272-277 | a parent group found for an element is registered under its own path |
| NexusStructure.PutGroupValid | src/usaxs/usaxs_flyscan_support/nexus_flyscan.py:376 | adding a group whose parent is registered keeps the group registry valid and keeps its paths |
| NexusStructure.RegisterGroupValid | src/usaxs/usaxs_flyscan_support/nexus_flyscan.py:333-376 | registering a group keeps the registries valid |
| NexusStructure.RegisterFieldValid | src/usaxs/usaxs_flyscan_support/nexus_flyscan.py:288-309 | registering a field keeps the registries valid |
| NexusStructure.RegisterPvValid | src/usaxs/usaxs_flyscan_support/nexus_flyscan.py:467-505 | registering a PV keeps the registries valid |
| NexusStructure.RegisterLinkValid | src/usaxs/usaxs_flyscan_support/nexus_flyscan.py:400-421 | registering a link keeps the registries valid |
| NexusStructure.RegisterValid | src/usaxs/usaxs_flyscan_support/nexus_flyscan.py:164-175 | registering any one element keeps the registries valid |
| NexusStructure.RegisterFromValid | src/usaxs/usaxs_flyscan_support/nexus_flyscan.py:164-175 | a whole registration pass keeps them valid |
| NexusStructure.ConfigureValid | src/usaxs/usaxs_flyscan_support/nexus_flyscan.py:111-177 | reading a configuration, whether it succeeds or not, leaves no path registered twice, every entry under its own path, and every parent group registered |
| NexusStructure.TwoRootsRejected | src/usaxs/usaxs_flyscan_support/nexus_flyscan.py:364-376 | two groups directly in NX_structure both want "/", so reading fails with RuntimeError |
| NexusStructure.DuplicatePvLabelAccepted | src/usaxs/usaxs_flyscan_support/nexus_flyscan.py:476-479 | as written, a second PV with the same label in the same group is accepted and silently replaces the first; the intended check refuses it with RuntimeError |
| NexusStructure.LabelTakenIsPathTaken | src/usaxs/usaxs_flyscan_support/nexus_flyscan.py:476-479 | the intended check refuses exactly the PVs whose path is already registered, so labels are unique per group, not across the file (see Findings for why) |
| NexusStructure.HdfLinkTypeRaises | src/usaxs/usaxs_flyscan_support/nexus_flyscan.py:411-414 | an "HDF5" link raises AttributeError as written, where the intended check raises RuntimeError naming the link type and path |
| NexusStructure.SignalFor | src/usaxs/usaxs_flyscan_support/nexus_flyscan.py:184-191 | PV i gets signal `metadata_<i+1>`; a PV name with a "." gets a plain signal, any other the description-reading kind |
| NexusStructure.WithSignals | src/usaxs/usaxs_flyscan_support/nexus_flyscan.py:184-191 | connecting gives every PV its signal, keyed and ordered as before |
| Text.ZeroPadValue | src/usaxs/usaxs_flyscan_support/nexus_flyscan.py:185 | `{i+1:04d}` is all digits and reads back as the number |
| NexusStructure.SignalNamesDistinct | src/usaxs/usaxs_flyscan_support/nexus_flyscan.py:185 | no two PVs get the same signal name |
| NexusStructure.Unconnected | src/usaxs/usaxs_flyscan_support/nexus_flyscan.py:204-217 | the unconnected list holds exactly the PVs whose signal is down, in registry order (a subsequence of the registry); it fails before connecting |
| NexusStructure.ConnectedIffNoneUnconnected | src/usaxs/usaxs_flyscan_support/nexus_flyscan.py:194-217 | the structure is connected exactly when no signal is unconnected |
| NexusStructure.Structure.constructor | src/usaxs/usaxs_flyscan_support/nexus_flyscan.py:94-109 | a new structure has its configuration file, empty registries and is not configured |
| NexusStructure.Structure.RegisterOne | src/usaxs/usaxs_flyscan_support/nexus_flyscan.py:164-175 | one element's registration, one step of the pass |
| NexusStructure.Structure.RegisterAll | src/usaxs/usaxs_flyscan_support/nexus_flyscan.py:164-175 | the loop over the elements of one kind is the registration pass |
| NexusStructure.Structure.ReadConfiguration | src/usaxs/usaxs_flyscan_support/nexus_flyscan.py:111-177 | the registries become what reading the configuration makes of them, and the structure is marked configured only when every element registered |
| NexusStructure.Structure.ConnectOphyd | src/usaxs/usaxs_flyscan_support/nexus_flyscan.py:179-192 | each PV, in registry order, gets its signal; nothing else changes |
| NexusStructure.Structure.Size | src/usaxs/usaxs_flyscan_support/nexus_flyscan.py:247-253 | `len` is the number of groups |
| NexusStructure.Structure.Hdf5Path | src/usaxs/usaxs_flyscan_support/nexus_flyscan.py:219-231 | the path of a group made from the element, or none when no group was |
| NexusStructure.ManagerSlot.constructor | src/usaxs/usaxs_flyscan_support/nexus_flyscan.py:60-69 | there is no manager at first |
| NexusStructure.ManagerSlot.GetManager | src/usaxs/usaxs_flyscan_support/nexus_flyscan.py:72-83 | the existing manager is returned whatever file is named; otherwise a new unconfigured one for this file |
| NexusStructure.ManagerSlot.ResetManager | src/usaxs/usaxs_flyscan_support/nexus_flyscan.py:60-69 | after a reset the next request makes a new manager |
| NexusWriter.ResourceFile | src/usaxs/callbacks/nxwriter_usaxs.py:298-307 | a path on the control computer's mount is moved to the shared mount with the rest of the path kept; any other path is returned unchanged |
| NexusWriter.ResourceFileIdempotent | src/usaxs/callbacks/nxwriter_usaxs.py:298-307 | rewriting twice is rewriting once |
| NexusWriter.Utf8Char | src/usaxs/callbacks/nxwriter_usaxs.py:242 | a character encodes to one to four bytes, one byte, its own code, exactly for ASCII |
| NexusWriter.Utf8 | src/usaxs/callbacks/nxwriter_usaxs.py:242 | encoding never shortens text |
| NexusWriter.Utf8Ascii | src/usaxs/callbacks/nxwriter_usaxs.py:242 | ASCII text encodes byte for byte |
| NexusWriter.ReprAll | src/usaxs/callbacks/nxwriter_usaxs.py:240 | `str()` of a list's items gives one text per item |
| NexusWriter.H5String | src/usaxs/callbacks/nxwriter_usaxs.py:225-242 | a list or tuple maps every item, after `str()`, to its encoding; any other falsy value becomes b""; a string is encoded; any other value raises AttributeError |
| NexusWriter.EncodeAll | src/usaxs/callbacks/nxwriter_usaxs.py:240 | each item is encoded after `str()`, in order |
| NexusWriter.H5StringAsciiList | src/usaxs/callbacks/nxwriter_usaxs.py:225-242 | encoding a list of ASCII strings gives each string back byte for byte |
| NexusWriter.StreamDatasets | src/usaxs/callbacks/nxwriter_usaxs.py:199-224 | a stream gets the dataset "value" with the whole column; the baseline stream also gets "value_start" (the first item) and "value_end" (the last); an empty baseline raises IndexError |
| NexusWriter.BaselineSingleReading | src/usaxs/callbacks/nxwriter_usaxs.py:210-224 | a baseline read once has the same start and end value |
| NexusWriter.AliasPrimary | src/usaxs/callbacks/nxwriter_usaxs.py:264-270 | with an "mca" stream and no "primary", "primary" is added as another name for "mca"; otherwise nothing changes |
| NexusWriter.AliasPrimaryProperties | src/usaxs/callbacks/nxwriter_usaxs.py:264-270 | afterwards "primary" and "mca" are the same group, and aliasing again changes nothing |
| NexusWriter.DataFileName | src/usaxs/callbacks/nxwriter_usaxs.py:152-156 | the file name starts with the cleaned sample title (name characters only) and "_", ends with ".h5", and between them holds at least four digits that read back as a non-negative order number |
| NexusWriter.DataFileNameStaysInside | src/usaxs/callbacks/nxwriter_usaxs.py:151-157 | the data file lies directly in the technique directory |
| NexusWriter.Writer.constructor | src/usaxs/callbacks/nxwriter_usaxs.py:30-67 | a writer starts idle without a file name |
| NexusWriter.Writer.Start | src/usaxs/callbacks/nxwriter_usaxs.py:137-159 | for a supported plan scanning is set and the file name becomes the technique directory joined with the data file name (if making the directory raises, scanning stays set and the name is kept); for any other plan scanning is cleared and the name kept |
| NexusWriter.Writer.Writes | src/usaxs/callbacks/nxwriter_usaxs.py:162-171 | data are written exactly for a supported plan |
| NexusWriter.WritersDisjoint | src/usaxs/callbacks/nxwriter_usaxs.py:245-322 | the fly-scan, SAXS/WAXS and uascan writers never claim the same plan |
| SaveFlyData.Truncate | src/usaxs/usaxs_support/saveFlyData.py:146-148 | the cut array is a prefix of the reading, as long as a non-negative limit allows; a negative limit drops that many items from the end, as a Python slice does |
| SaveFlyData.TruncateIdempotent | src/usaxs/usaxs_support/saveFlyData.py:146-148 | cutting again to the same limit changes nothing |
| SaveFlyData.LimitOf | src/usaxs/usaxs_support/saveFlyData.py:143-147 | no limit applies unless the PV names a registered limit PV; a limit that applies is that PV's integer reading |
| SaveFlyData.Prepared | src/usaxs/usaxs_support/saveFlyData.py:137-148 | None is written as "no data", a single value as a one-item list, an array as a prefix no longer than the limit (the whole array without a limit); a failing limit is an error |
| SaveFlyData.WrittenOnce | src/usaxs/usaxs_support/saveFlyData.py:122-136 | a connected PV is written by exactly one pass: before the end of the scan when it is not acquired after the scan, after it otherwise |
| SaveFlyData.UnconnectedPv | src/usaxs/usaxs_support/saveFlyData.py:126-130 | an unconnected PV is written as "not connected" before the end of the scan, never after it in the newer copy; the older copy (instrument/usaxs_support/saveFlyData.py:147-154) reads it anyway |
| SaveFlyData.PassWrites | src/usaxs/usaxs_support/saveFlyData.py:122-168 | a pass writes at most one dataset per PV |
| SaveFlyData.PassWritesFailed | src/usaxs/usaxs_support/saveFlyData.py:122-168 | once a pass has raised, the PVs after it write nothing |
| SaveFlyData.PassWritesFrom | src/usaxs/usaxs_support/saveFlyData.py:150-158 | every dataset a pass writes is the data that pass gives some registered PV, under that PV's label in its parent group |
| SaveFlyData.ApplyOne | src/usaxs/usaxs_support/saveFlyData.py:330-331 | writing a dataset adds its path and touches no other; the newer copy replaces one of the same name, the older copy (instrument/usaxs_support/saveFlyData.py:299-320) leaves it alone |
| SaveFlyData.ApplyPaths | src/usaxs/usaxs_support/saveFlyData.py:319-342 | after a sequence of writes every written path holds a dataset and every other dataset is unchanged |
| SaveFlyData.SortPaths | src/usaxs/usaxs_support/saveFlyData.py:259 | sorting keeps exactly the group paths |
| SaveFlyData.SortPathsSorted | src/usaxs/usaxs_support/saveFlyData.py:259 | sorted distinct paths are strictly increasing |
| SaveFlyData.BeforeInOrder | src/usaxs/usaxs_support/saveFlyData.py:259 | in sorted order a parent path comes before each path below it |
| SaveFlyData.CreateGroupsInSortedOrder | src/usaxs/usaxs_support/saveFlyData.py:259-277 | with a valid registry every group is created, in sorted order, because its parent was always created first |
| SaveFlyData.CreateGroupsFailed | src/usaxs/usaxs_support/saveFlyData.py:259-277 | once creating a group has raised, the groups after it are not created |
| SaveFlyData.CreateAllGroups | src/usaxs/usaxs_support/saveFlyData.py:259-277 | the whole sorted registry of a valid structure is created without error |
| SaveFlyData.FieldWrites | src/usaxs/usaxs_support/saveFlyData.py:280-293 | the fields succeed exactly when every parent group was made, and then each field is a one-item dataset of its text under its own name in its parent |
| SaveFlyData.StructureMade | src/usaxs/usaxs_support/saveFlyData.py:259-293 | with valid registries every group and every field dataset is created |
| SaveFlyData.LinkParentOfChild | src/usaxs/usaxs_flyscan_support/nexus_flyscan.py:431 | the parent computed from a source path is the group the source sits in |
| SaveFlyData.LinkStep | src/usaxs/usaxs_flyscan_support/nexus_flyscan.py:423-441 | a made link leads from a new path to its source, and the source then carries a "target" attribute; a link whose path is taken fails after the attribute is written, adding no link |
| SaveFlyData.MakeLinksKeepsPrefix | src/usaxs/usaxs_support/saveFlyData.py:223-225 | a link made by an early step stays, with the same source, whatever the later steps do |
| SaveFlyData.LinksBeforeFailureKept | src/usaxs/usaxs_support/saveFlyData.py:223-225 | every link before the first failing one is in the result |
| SaveFlyData.MakeLinks | src/usaxs/usaxs_support/saveFlyData.py:223-225 | making the links never removes a link or a "target" attribute |
| SaveFlyData.MakeLinksMade | src/usaxs/usaxs_support/saveFlyData.py:223-225 | when every link is made, each link's path leads to its source and each source carries a "target" attribute |
| SaveFlyData.TargetKept | src/usaxs/usaxs_flyscan_support/nexus_flyscan.py:438-440 | a source that already has a "target" attribute keeps it |
| SaveFlyData.FlyFile.constructor | src/usaxs/usaxs_support/saveFlyData.py:263 | a new file is empty and open |
| SaveFlyData.FlyFile.MakeDataset | src/usaxs/usaxs_support/saveFlyData.py:319-342 | the datasets become those of ApplyOne; the call succeeds unless the older copy meets an existing name; nothing else in the file changes |
| SaveFlyData.FlyFile.CreateGroup | src/usaxs/usaxs_support/saveFlyData.py:260-277 | the groups made become those of one creation step; only the root sets the root attributes |
| SaveFlyData.FlyFile.CreateInOrder | src/usaxs/usaxs_support/saveFlyData.py:259-277 | the groups made and the error are those of CreateGroups for the given order; the root attributes are set when the root is among them |
| SaveFlyData.FlyFile.CreateGroupsInFile | src/usaxs/usaxs_support/saveFlyData.py:259-277 | the groups are created in sorted path order in a new, empty file |
| SaveFlyData.FlyFile.CreateFields | src/usaxs/usaxs_support/saveFlyData.py:280-293 | the datasets become those of applying the field writes in order |
| SaveFlyData.FlyFile.CreateStructure | src/usaxs/usaxs_support/saveFlyData.py:259-293 | a new file holds the sorted groups, then the field datasets; a group error leaves no datasets, a field error is returned, and the root carries the file name, creator version and configuration file |
| SaveFlyData.FlyFile.WriteOne | src/usaxs/usaxs_support/saveFlyData.py:123-168 | one PV adds the write of one pass step to the datasets |
| SaveFlyData.FlyFile.WriteNext | src/usaxs/usaxs_support/saveFlyData.py:123-168 | after the first i PVs were written without error, writing the next one extends the datasets by exactly that PV's step; an error there is the error of the whole pass |
| SaveFlyData.FlyFile.WritePvs | src/usaxs/usaxs_support/saveFlyData.py:122-168 | the datasets become those of the given pass over the PVs in order, and the error is the pass's error |
| SaveFlyData.FlyFile.WritePass | src/usaxs/usaxs_support/saveFlyData.py:122-168 | the datasets become those of PassWrites over the registry in order; a failing connection check writes nothing |
| SaveFlyData.FlyFile.PreliminaryWriteFile | src/usaxs/usaxs_support/saveFlyData.py:116-168 | the file gains exactly the datasets of the preliminary pass |
| SaveFlyData.FlyFile.LinkAndClose | src/usaxs/usaxs_support/saveFlyData.py:223-227 | the links and "target" attributes become those of making every link among the file's groups and datasets; success closes the file; a failing link leaves it open, keeping the links and attributes written before the failure |
| SaveFlyData.FlyFile.SaveFile | src/usaxs/usaxs_support/saveFlyData.py:170-227 | a missing root group raises KeyError and a root group not yet made AttributeError; otherwise the root is time-stamped, an unconnected-signal or write error is returned with no link touched, and the links are those of making them in order, the file closing only when all succeed |
| SaveFlyData.PrepareToAcquire | src/usaxs/usaxs_support/saveFlyData.py:233-294 | the configuration is read and the signals made only once; a configuration error leaves the file untouched; otherwise the file is created from the resulting registries exactly as `CreateStructure` promises (sorted groups, field datasets, root attributes, no links, open) |
| SaveFlyData.Dirname | src/usaxs/usaxs_support/saveFlyData.py:384 | the directory is a prefix of the path, and empty for a bare file name |
| SaveFlyData.DirnameOfChild | src/usaxs/usaxs_support/saveFlyData.py:384 | the directory of a file named under a directory, absolute or relative, is that directory |
| SaveFlyData.MainChecks | src/usaxs/usaxs_support/saveFlyData.py:384-398 | the command line passes exactly when the file's directory exists (or none is named), the file does not, and the configuration file does; each failure is a RuntimeError, a missing directory named first |
| OrderedDicts.Get | src/usaxs/usaxs_support/saveFlyData.py:145-146 | a key reads as absent exactly when it is not among the keys, and otherwise gives the value stored with it |
| OrderedDicts.Put | src/usaxs/usaxs_flyscan_support/nexus_flyscan.py:376 | a registry assignment keeps the key order, appending a new key at the end |
| OrderedDicts.GetPut | src/usaxs/usaxs_flyscan_support/nexus_flyscan.py:376 | after an assignment the key reads as the new value and every other key as before |
| OrderedDicts.PutDistinct | src/usaxs/usaxs_flyscan_support/nexus_flyscan.py:376 | an assignment never makes a key appear twice |
| OrderedDicts.PutAt | src/usaxs/usaxs_flyscan_support/nexus_flyscan.py:376 | assigning to a present key replaces its item in place and moves nothing |
| OrderedDicts.PutAbsent | src/usaxs/usaxs_flyscan_support/nexus_flyscan.py:376 | assigning to an absent key appends the item |
| OrderedDicts.PutPut | src/usaxs/usaxs_flyscan_support/nexus_flyscan.py:376 | assigning twice to a key is assigning the second value |
| FileTree.Parts | src/usaxs/utils/utils.py:42 | the parts of a path are non-empty, and a path starting with a slash is absolute |
| FileTree.Child | src/usaxs/utils/utils.py:80 | joining under an absolute path gives an absolute path |
| FileTree.PartsOfPathString | src/usaxs/utils/utils.py:80-87 | printing an absolute path of names and parsing it again gives it back |
| FileTree.FileSystem.MakeDirs | src/usaxs/utils/utils.py:81 | making directories with parents fails exactly when a file is in the way or the directory exists without exist_ok; otherwise the directory and all above it exist and no file changes |
| FileTree.OpenFailure | src/usaxs/utils/obsidian.py:89 | opening a file for writing succeeds exactly when no file lies on the way, its directory exists and the path is not a directory; otherwise NotADirectoryError, FileNotFoundError or IsADirectoryError, in that order |
| FileTree.BlockedChild | src/usaxs/utils/obsidian.py:83 | a file lies on the way to a child path exactly when its parent is a file or a file lies on the way to the parent |
| FileTree.FileSystem.WriteFile | src/usaxs/utils/obsidian.py:89 | writing fails as `OpenFailure` says, changing nothing; otherwise the file's text is replaced and no directory changes |
| FileTree.FileSystem.AppendFile | src/usaxs/utils/obsidian.py:98 | appending fails as `OpenFailure` says, changing nothing; otherwise the text is added at the end of the file, a new file starting empty |

## Left out

- ModeChanges.Lead: the first `bps.mv` of `mode_SAXS` and `mode_WAXS` closes the shutter and moves `m_stage.x` and `gslit_stage.x` together; the model records it as a shutter step followed by a move step, so it does not capture that the two run concurrently. The same holds for the tails `ModeChanges.DirectBeamTail`, `ModeChanges.RadiographyTail`, `LegacyModeChanges.BlackFlyTail` and `LegacyModeChanges.RadiographyTail`, where one `bps.mv` that moves shutters and stages together is recorded as several consecutive steps.
- EPICS, ophyd and bluesky themselves. Motor motion, `bps.mv` waits, sleeps and polling are steps recorded in a trace or fields written by a method. The values the hardware reports (mode readings, gains, count rates, put failures, connection states) are parameters.
- Clocks. `time.time()`, `datetime.now()` and the month of the Obsidian folder are parameters (`now`, `timestamp`, `month`).
- Logging and printing. Warnings that only log, such as the camonitor six-digit check, change nothing in the model.
- Floating point. Readings and limits are exact `real`s, so rounding of float arithmetic is not modelled. Python `float()` parsing is modelled for plain decimals only, without exponents, `inf` or `nan`.
- ReadableTime: durations are whole numbers of seconds, so the rounding of a fractional duration in `readable_time` is not modelled.
- CamonitorLog.ParseLine: the microseconds are read as an exact decimal. The float sum `timegm(...) + float(micros) / 1e6` is not rounded.
- CamonitorLog.FromIsoFormat: only the extended forms `YYYY-MM-DD` with `HH`, `HH:MM` or `HH:MM:SS` are read, which every Python 3 version accepts. The basic forms without separators (`YYYYMMDD`, `HHMMSS`), ISO week dates and time-zone offsets, which Python 3.11 also accepts, are rejected here with ValueError. So is `ParseTime` and, for such a line, `ParseLine`.
- Text: `strip`, `split` and `lower` use ASCII whitespace and letters, not the Unicode tables Python uses.
- UserData.StateRecord.SetStateBlocking: the message is taken as apstools' `trim_string_for_EPICS` returns it. That function is not part of this model, and neither is it for `SetStatePlan`.
- NexusWriter.DataFileName: the title is cleaned by apstools' `cleanupText`, which is not part of this model. It is taken to behave like the package's own `cleanupText` (`CleanupText.CleanupText`).
- CommandList.ParseTextCommandFile: `split_quoted_line` is not part of this model. The words of a line are a parameter.
- CommandList.ParseExcelCommandFile: the spreadsheet reader is not part of this model. The rows are given as cells.
- The XML configuration is a list of elements with their parent index. XSD validation and the lxml API are not modelled.
- HDF5 is a map from dataset paths to data, plus the groups made, root attributes, `target` attributes and links.
  - The EPICS attributes attached to a dataset (`_attachEpicsAttributes`) and the `attrib` dictionaries are not modelled.
  - The HDF5 and h5py version attributes and the program's own path are not modelled.
  - A conversion failure inside h5py is not modelled, nor is the fallback that writes the error text.
- SaveFlyData: `as_string` reads, `waitForData`, the connection wait loops of `_prepare_to_acquire`, and the trigger and timeout PVs are not modelled. A PV's reading is given.
- SaveFlyData.LimitOf: a length-limit PV whose reading is not an integer gives TypeError. A float limit is not modelled.
- SaveFlyData.CreateGroupsInSortedOrder assumes every group was registered with a path. A group under an element other than `group` or `NX_structure` is reported at registration (`NexusStructure.GroupPlacement` gives TypeError). The source registers it under `None` and fails only when `sorted` compares the keys.
- NexusStructure.RegisterField: the exception text of a failing field is not modelled word for word. `_prepare_to_acquire` wraps any field failure in a generic Exception.
- SaveFlyData.MakeLinks: a missing object is reported as KeyError, whatever h5py would raise.
- The older `makeDataset`'s empty dataset for `data=None` and its string conversion are not modelled. Only its refusal to replace an existing name is modelled.
- The `Station`/`Instrument` wiring of the startup code, device factories and YAML files are not part of this model.
- NexusWriter: the apstools `NXWriter` machinery beyond the overridden methods is not modelled. This covers the HDF5 file layout, metadata and the SPEC-like links.
- AreaDetectorPaths.FilePlugin.PathTemplateFixer: the calendar formatting of the IOC path (`datetime.now().strftime`) is a parameter.
- Filters: the `TransmDerivedSignal` arithmetic and the EPICS transmission settings are not modelled. Only the energy step function and the Al-bank writes are.
- Amplifiers.AutoscaleLoop: the final gains are given for the controls read; it does not also promise that the set of remembered controls is unchanged.
- Amplifiers: `setGain`'s float formatting and parsing of gain names, and the `__init_gains__` table, are not modelled.
- Python's `os.path.abspath` and symbolic links are not modelled. Paths are compared as written, except the note's name, which folds "." and ".." as `os.path.normpath` does; a leading "//", which `normpath` keeps, does not change that name.
- NexusStructure.Attached: HDF5 paths are strings as written. HDF5 reads `//x` as `/x`; the map that stands for the file keeps them apart, so two paths HDF5 takes for one object are two keys here.
- NexusStructure.RegisterField: an empty `text` child (`<text/>`) has no text in lxml, and `.strip()` on it raises AttributeError. The model reads such a child as the empty string.
- NexusWriter.Repr: a string inside a list is shown between single quotes, without the escaping of Python's `repr`. A string holding a quote or a backslash is shown differently by Python.
- CommandList.VerifyOutcome: uses the corrected message (Findings, first row). As written, the message with errors does not start with the header; the errors are joined with the header between them. Which commands raise is the same.
- CommandList.VerifyCommands: gives the corrected message of `VerifyOutcome`, not the message as written.
- CommandList.ExecuteCommandList: the verification step raises with the corrected message of `VerifyOutcome`, not the message as written.
- Amplifiers.ScalerAutoscaleSpec: uses the corrected verdict (`AutoscaleVerdict`). As written, `max_iterations<=0` during user operations raises UnboundLocalError whatever the RunEngine state; the model raises nothing with an idle RunEngine and AutoscaleError with a busy one.
- Amplifiers.ScalerAutoscaleGivesUp: promises AutoscaleError for a busy RunEngine in user operations also when `max_iterations<=0`, where the code as written raises UnboundLocalError on `converged`.
- NexusStructure.RegisterFromStep: registers PVs and links with the corrected checks (`Intended`). As written, a second PV with a label already used in its group replaces the first, and a link whose type is not NeXus raises AttributeError instead of RuntimeError.
- NexusStructure.Configure: reads the configuration with the corrected checks of `RegisterFromStep`, so it differs on the same two inputs.
- NexusStructure.Structure.ReadConfiguration: reads the configuration with the corrected checks of `RegisterFromStep`, so it differs on the same two inputs.
- SaveFlyData.PrepareToAcquire: reads the configuration with the corrected checks of `RegisterFromStep`, so it differs on the same two inputs.
- Threads and concurrent callbacks (RunEngine subscriptions, progress threads) are not modelled. Each call runs alone.

## Findings

| source | as written | input that shows it | evidently intended | confidence | as-written member | corrected member |
|---|---|---|---|---|---|---|
| src/usaxs/plans/command_list.py:238-241 | two adjacent string literals are fused before `.join`, so the header plus a newline becomes the separator between the errors | two errors `a`, `b`: the message is `a`, the header, then `b`, and it does not start with the header | the header, then the errors one per line | not executed | CommandList.VerifyMessageAsWrittenLosesHeader | CommandList.VerifyMessageListsErrors |
| src/usaxs/usaxs_flyscan_support/nexus_flyscan.py:476-479 | the duplicate check looks the bare label up among the PV registry keys, which are HDF5 paths | two PVs labelled `x` in the root group: both pass, and the second silently replaces the first at `//x` | a second PV with the same label in the same group is refused; the registry is keyed by HDF5 path (nexus_flyscan.py:505) and read back by path (saveFlyData.py:200-202), so the guard evidently protects one entry from overwriting another, and same-label PVs in different groups get distinct datasets | not executed | NexusStructure.DuplicatePvLabelAccepted | NexusStructure.RegisterPv |
| src/usaxs/usaxs_flyscan_support/nexus_flyscan.py:411-414 | the error message reads `self.hdf5_path` before it is assigned | a link with `linktype="HDF5"`: AttributeError instead of the RuntimeError | RuntimeError naming the link type and the link's path | not executed | NexusStructure.HdfLinkTypeRaises | NexusStructure.RegisterLink |
| src/usaxs/plans/amplifiers_plan.py:183-233 | the failure warning logs `converged`, which is bound only inside the loop | `max_iterations=0` during user operations: UnboundLocalError, with an idle or a busy RunEngine | no exception while the RunEngine is idle, as in `summarize_plan` | not executed | Amplifiers.AutoscaleVerdictAsWrittenRaisesWhenIdle | Amplifiers.AutoscaleVerdict |
