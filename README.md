# Baby-cry monitor: alert gating, verification and calibration control, in Dafny

This project models the decision core of a baby-cry monitor, a Python service.
The monitor listens to a microphone and scores each audio window with a
primary detector and a YAMNet-based verifier, then decides whether to alert
the registered Telegram chats. The modelled parts are:

- **Gating** (`gating.dfy`): the `GatingEngine`. It turns per-window scores into
  candidate / confirmed / suppressed-by-cat / ready-for-alert decisions.
  Confirmation needs N of the last M windows, and there is a cooldown between
  alerts. The engine's runtime parameters can be changed while it runs.
- **Decision** (`decision.py` → `decision.dfy`): the verifier test an alert must
  pass: baby threshold, baby–cat margin and cat dominance.
- **Hybrid** (`hybrid.dfy`): merging the primary result with the verifier's.
- **Yamnet** (`yamnet.dfy`): aggregating per-class YAMNet scores into baby, cat
  and suppressed scores, the clamp on the non-cry weight, and the runtime label.
- **Audio** (`audio.dfy`): the `RollingAudioBuffer`. It keeps the newest chunks
  whose total fits the capacity, and its snapshot.
- **Recipients** (`recipients.dfy`): the Telegram recipient store. It holds a
  sorted, duplicate-free JSON list of chat ids.
- **Calibration** (`calibration.dfy`): the calibration control file:
  - starting, stopping and overriding per-phase parameters;
  - the interval;
  - loading and saving the JSON file;
  - the stop summary that replays the session's commands;
  - the status file.
- **Poller** (`poller.dfy`): the Telegram command poller:
  - the dispatch of `/start`, `/status`, `/test`, `/cal`, `/cal_start`,
    `/cal_set`, `/cal_params`, `/cal_status`, `/cal_watch`, `/cal_watch_stop`
    and `/cal_stop`;
  - the update offset;
  - one tick of the calibration watch loop.
- `calibration_examples.dfy` and `poller_examples.dfy` replay the repository's
  calibration and poller test scenarios on the model.

Helper modules:
- `text.dfy`: Python's `strip`, `lower`, `upper` and `split` on ASCII text.
- `numbers.dfy`: `int()` and `str()` of integers, and plain decimal literals
  for `float()` and its `str`.
- `order.dfy`: lexicographic order and `sorted(set(...))`.
- `json.dfy`: decoded JSON values, `str()`, truthiness and `int()`.
- `dict.dfy`: a Python dict as an insertion-ordered association list.
- `wrappers.dfy`: `Option` and `Result`.

Modelling choices:
- Scores and intervals are exact `real`s.
- A float typed into a command or stored in the control file is an exact
  decimal `Decimal(mantissa, scale)`.
- The wall clock (`datetime.utcnow()`, `time.monotonic()`) is a `now`
  parameter.
- The `updated_at` stamp is a `stamp` parameter.
- A file is `Absent`, `Corrupt` (reading or decoding it raises) or `Stored`
  with its decoded JSON.
- Where the modelled code raises on what it reads (an undecodable recipient
  file, a malformed update, text that is not a number, a missing score, and
  a non-object control file in the loader as written,
  `LoadControlAsWritten`), the model returns an `Err`, `None` or a `raised`
  flag. The control store's methods use the corrected loader instead (see
  "Findings" and "Left out"). Callbacks that raise are not modelled.
- The poller's callbacks are function-valued fields of its `Config`. Every
  invocation is recorded in `calls`, and every reply is recorded in `outbox`.

Classes are used where the source updates state in place:
- `GatingEngine`, `RollingAudioBuffer` and `TelegramRecipientStore`;
- `ControlStore`, which stands for the artifact directory's control and status
  files;
- `TelegramStartPoller`.

Each method is proved against a function of the old state. The lemmas about
those functions carry the promised properties.

## Model

| member | source | states |
|---|---|---|
| Gating.Window | baby_cry_detection/monitor/gating.py:50 | what a `deque(maxlen=m)` keeps after an append: a suffix of the history of length min(len, m) |
| Gating.Decide | baby_cry_detection/monitor/gating.py:40-67 | the history stays within `confirm_m` entries; a cat-suppressed window is never ready; a ready window is confirmed and past the cooldown; the last-alert time becomes `now` exactly when the window is ready, otherwise it is unchanged |
| Gating.DecideFlags | baby_cry_detection/monitor/gating.py:41-57 | each flag in both directions: candidate iff primary ≥ primary threshold ∧ baby ≥ baby threshold ∧ baby − weight·cat ≥ margin; suppressed iff cat ≥ suppress threshold ∧ ¬(baby > cat ∧ baby ≥ threshold); new history = old + [candidate ∧ ¬suppressed] trimmed to `confirm_m`; confirmed iff trues ≥ `confirm_n`; ready iff confirmed ∧ ¬suppressed ∧ (no alert yet ∨ now − last ≥ cooldown) |
| Gating.IsCandidate | baby_cry_detection/monitor/gating.py:41-45 | the candidate test, stated in both directions by `DecideFlags` |
| Gating.SuppressedByCat | baby_cry_detection/monitor/gating.py:46-48 | the cat suppression test, stated by `DecideFlags` and `SuppressionMatchesVerifier` |
| Gating.CooldownReady | baby_cry_detection/monitor/gating.py:54-56 | the cooldown test, stated by `DecideFlags` and `AlertsSpaced` |
| Gating.SuppressionMatchesVerifier | baby_cry_detection/monitor/gating.py:46-48 | when baby ≥ baby threshold, cat suppression is exactly the verifier's cat dominance (cat ≥ threshold ∧ baby ≤ cat), and a suppressed window fails the verifier |
| Gating.Run | baby_cry_detection/monitor/gating.py:40-67 | evaluating a sequence of windows yields one decision per window |
| Gating.AlertsSpaced | baby_cry_detection/monitor/gating.py:53-60 | with a non-negative cooldown, over any sequence of evaluations, any two alerts are at least a cooldown apart, and each is at least a cooldown after the alert before the sequence |
| Gating.ConfirmThenCooldownExample | tests/test_monitor_gating.py:4-21 | with baby 0.4, weight 1.0, margin 0.1, suppress 0.7, 2 of 3 and cooldown 120 s, three clear windows closer than 120 s give ready = false, true, false |
| Gating.ExampleFirstStep | tests/test_monitor_gating.py:15 | the first window is a candidate but not yet confirmed |
| Gating.ExampleSecondStep | tests/test_monitor_gating.py:16 | the second window confirms and alerts, recording its time |
| Gating.ExampleThirdStep | tests/test_monitor_gating.py:17 | the third window, within the cooldown, does not alert |
| Gating.CatSuppressionExample | tests/test_monitor_gating.py:24-38 | baby 0.45 against cat 0.8 with suppress threshold 0.3 is suppressed and not ready, whatever the engine's history |
| Gating.UpdatedParams | baby_cry_detection/monitor/gating.py:77-88 | `confirm_n` and `confirm_m` become at least 1 and the cooldown at least 0, keeping values already in range; `None` leaves a field unchanged; the baby, weight, margin and suppress thresholds are never touched |
| Gating.UpdatedHistory | baby_cry_detection/monitor/gating.py:81-86 | the rebuilt history fits the new `confirm_m` |
| Gating.UpdatedHistoryKeepsNewest | baby_cry_detection/monitor/gating.py:81-86 | the history becomes its last min(len, new M) entries, in order; the same M or `None` leaves it untouched |
| Gating.ShrinkExample | baby_cry_detection/monitor/gating.py:84-85 | shrinking M from 5 to 2 keeps the two newest verdicts |
| Gating.GatingEngine.constructor | baby_cry_detection/monitor/gating.py:18-38 | stores the thresholds (primary defaults to 0.5 at the call site), an empty history and no last alert |
| Gating.GatingEngine.Evaluate | baby_cry_detection/monitor/gating.py:40-67 | the returned decision and the new history and last-alert time are `Decide` of the old state; the parameters are unchanged |
| Gating.GatingEngine.UpdateRuntime | baby_cry_detection/monitor/gating.py:69-88 | the parameters become `UpdatedParams`, the history `UpdatedHistory`, and the last-alert time is unchanged |
| Decision.BelowThresholdFails | baby_cry_detection/monitor/decision.py:24-25 | a baby score below the threshold fails, whatever the other inputs |
| Decision.SmallMarginFails | baby_cry_detection/monitor/decision.py:27-29 | baby − weight·cat below the margin fails |
| Decision.CatDominanceFails | baby_cry_detection/monitor/decision.py:31-32 | cat ≥ suppress threshold with baby ≤ cat fails; at baby == cat dominance wins |
| Decision.PassesIff | baby_cry_detection/monitor/decision.py:17-32 | passing holds exactly when none of the three failure conditions holds |
| Decision.PassesVerifierWithThresholds | baby_cry_detection/monitor/decision.py:17-32 | the threshold test; its meaning is stated by `PassesIff`, `BelowThresholdFails`, `SmallMarginFails` and `CatDominanceFails` |
| Decision.PassesVerifierUsesConfig | baby_cry_detection/monitor/decision.py:7-14 | `passes_verifier` is the threshold test applied to the configuration's four thresholds |
| Decision.PassesVerifier | baby_cry_detection/monitor/decision.py:7-14 | the configured threshold test, as `PassesVerifierUsesConfig` states |
| Decision.DefaultExamples | tests/test_monitor_cli_logic.py:17-24 | with 0.45/1.0/0.15/0.45, (baby 0.8, cat 0.2) passes and (baby 0.4, cat 0.8) fails |
| Hybrid.Merge | baby_cry_detection/monitor/backends/hybrid.py:25-37 | the primary score always comes from the primary result; without a verifier the result is the primary result |
| Hybrid.MergeChoosesScores | baby_cry_detection/monitor/backends/hybrid.py:31-32 | the baby and cat scores are each the verifier's when it is positive, else the primary's |
| Hybrid.MergeExample | tests/test_monitor_hybrid.py:19-25 | primary (0.9, 0.7, 0.2) with verifier (0.1, 0.8, 0.1) gives (0.9, 0.8, 0.1) |
| Yamnet.Matching | baby_cry_detection/monitor/backends/yamnet_verifier.py:33-35 | the selected indices are exactly the class indices whose name matches the predicate |
| Yamnet.MaxOr | baby_cry_detection/monitor/backends/yamnet_verifier.py:37-38 | `max(xs, default=d)`: d for an empty list, otherwise a member of xs that bounds all of them |
| Yamnet.ScoresAt | baby_cry_detection/monitor/backends/yamnet_verifier.py:37-38 | the scores at the given indices, or `None` (Python raises) exactly when an index is past the score array |
| Yamnet.ScoresOutside | baby_cry_detection/monitor/backends/yamnet_verifier.py:40-41 | the non-target list holds exactly the scores at indices outside the excluded set |
| Yamnet.GroupScores | baby_cry_detection/monitor/backends/yamnet_verifier.py:33-42 | the baby, cat and non-target maxima, or `None` (Python raises) when a matched class has no score; its meaning is stated by `GroupScoresAreMaxima` and `NonTargetIsMaximum` |
| Yamnet.Combine | baby_cry_detection/monitor/backends/yamnet_verifier.py:44-46 | the suppressor is at least the cat score; the adjusted baby score lies in [0, 1] and is also the primary score |
| Yamnet.AggregateScores | baby_cry_detection/monitor/backends/yamnet_verifier.py:31-46 | aggregation fails (Python raises) exactly when a baby or cat class name has no score |
| Yamnet.MatchedMaximum | baby_cry_detection/monitor/backends/yamnet_verifier.py:33-38 | a group score bounds every matching class's score, equals the score of one of them when any class matches, and is 0 when no class matches |
| Yamnet.GroupScoresAreMaxima | baby_cry_detection/monitor/backends/yamnet_verifier.py:33-38 | the baby score is the largest score of a class whose lower-cased name contains "baby cry" or "infant cry": it bounds them all and is one of them, and it is 0 without one; the same holds for "cat" or "meow" and the cat score |
| Yamnet.NonTargetIsMaximum | baby_cry_detection/monitor/backends/yamnet_verifier.py:40-42 | the non-target score is the largest score at an index that is neither a baby nor a cat class: it bounds them all, is one of them when there is one, and is 0 when every scored index is a baby or cat class |
| Yamnet.ExcludedAreTargets | baby_cry_detection/monitor/backends/yamnet_verifier.py:40-41 | the excluded index set is exactly the baby- and cat-named indices |
| Yamnet.CombineBounds | baby_cry_detection/monitor/backends/yamnet_verifier.py:44-45 | for a raw baby score in [0, 1], the adjusted score is at most the raw one and equals it when the suppressor is the cat score |
| Yamnet.SuppressionExample | tests/test_yamnet_verifier.py:6-13 | baby 0.62, cat 0.10 and speech 0.55 at weight 1: the baby score drops below 0.62 and the suppressor reaches 0.55 |
| Yamnet.ClearBabyExample | tests/test_yamnet_verifier.py:16-23 | baby 0.81, cat 0.12 and other 0.10: the baby score stays above 0.7 and the cat score below 0.2 |
| Yamnet.YamnetVerifier.constructor | baby_cry_detection/monitor/backends/yamnet_verifier.py:16-29 | the non-cry weight is clamped to at least 0 (kept when already non-negative); nothing is loaded yet |
| Yamnet.YamnetVerifier.RuntimeLabel | baby_cry_detection/monitor/backends/yamnet_verifier.py:91-96 | the fallback label when the fallback ran; otherwise the gpu or cpu label when loaded; otherwise the not-loaded label |
| Audio.Concat | baby_cry_detection/monitor/audio.py:57 | the concatenation is as long as the chunks' total |
| Audio.Evict | baby_cry_detection/monitor/audio.py:50-52 | the kept chunks are a suffix of the old chunks plus the new one, their total fits the capacity, and no shorter eviction would have fit |
| Audio.OversizedChunkEmpties | baby_cry_detection/monitor/audio.py:50-52 | a chunk larger than the capacity leaves the buffer empty |
| Audio.RollingAudioBuffer.constructor | baby_cry_detection/monitor/audio.py:40-44 | the capacity is max(1, seconds·rate), and the buffer starts empty |
| Audio.RollingAudioBuffer.Append | baby_cry_detection/monitor/audio.py:46-52 | the chunks become `Evict` of the old chunks plus the new one; the running total stays equal to the chunks' sizes and within the capacity |
| Audio.RollingAudioBuffer.Snapshot | baby_cry_detection/monitor/audio.py:54-60 | the snapshot is a suffix of the concatenated chunks, at most the capacity long, and empty without chunks |
| Audio.RollingAudioBuffer.SnapshotIsEverything | baby_cry_detection/monitor/audio.py:54-60 | on a valid buffer the snapshot is the whole concatenation, of length the running total |
| Recipients.ListedIds | baby_cry_detection/monitor/recipient_store.py:12-18 | listing fails only for an undecodable file; the listed ids are never blank (a missing file or a non-list lists nothing) |
| Recipients.NonBlank | baby_cry_detection/monitor/recipient_store.py:18 | no listed entry is blank |
| Recipients.NonBlankListsEvery | baby_cry_detection/monitor/recipient_store.py:18 | every entry whose `str` is not blank is listed |
| Recipients.EncodeRoundTrip | baby_cry_detection/monitor/recipient_store.py:26 | listing a written list of non-blank ids gives that list back |
| Recipients.Encode | baby_cry_detection/monitor/recipient_store.py:26 | the written JSON list; `EncodeRoundTrip` states that listing it gives the ids back |
| Recipients.WithId | baby_cry_detection/monitor/recipient_store.py:24-26 | the new list is strictly sorted and holds exactly the old ids plus the new one |
| Recipients.AddIdempotent | baby_cry_detection/monitor/recipient_store.py:24-26 | adding an id twice is the same as adding it once |
| Recipients.AddKeepsIds | baby_cry_detection/monitor/recipient_store.py:24-26 | adding never drops an id, always includes the added one, and never duplicates |
| Recipients.AddExample | tests/test_recipient_store.py:4-9 | adding "1", "2", "1" lists ["1", "2"] |
| Recipients.TelegramRecipientStore.constructor | baby_cry_detection/monitor/recipient_store.py:8-10 | the store reads and writes the given file |
| Recipients.TelegramRecipientStore.ListChatIds | baby_cry_detection/monitor/recipient_store.py:12-18 | the file listed as `ListedIds` says: nothing for a missing file or a non-list, a failure for an undecodable file, otherwise the non-blank entries |
| Recipients.TelegramRecipientStore.AddChatId | baby_cry_detection/monitor/recipient_store.py:20-26 | a blank id leaves the file unchanged; an undecodable file raises and is left unchanged; otherwise the listed ids become `WithId` of the old ones and the trimmed id |
| Calibration.DefaultControl | baby_cry_detection/monitor/calibration.py:44-50 | the default control is inactive, phase 1, 15 s, with no overrides, and valid |
| Calibration.Clamp | baby_cry_detection/monitor/calibration.py:205 | the interval is clamped into [2, 600] and kept when already inside |
| Calibration.ToInterval | baby_cry_detection/monitor/calibration.py:198-205 | `None` gives the default; otherwise `int()` of the value clamped into [2, 600] when `int()` accepts it, and the default when it rejects it (containers, text that is not an integer) |
| Calibration.ParseTyped | baby_cry_detection/monitor/calibration.py:208-216 | an integer parameter: unparsable exactly when `int()` rejects the text, the negative-integer error exactly when it reads a negative number, otherwise that number; a float parameter: unparsable exactly when `float()` rejects the text, otherwise its value; every result has the expected type |
| Calibration.NormalizeFromNormal | baby_cry_detection/monitor/calibration.py:219-234 | normalising keeps every key once, under its stripped upper-case name, with a value of the phase's type |
| Calibration.PutNormal | baby_cry_detection/monitor/calibration.py:133-134 | storing a valid entry keeps the overrides normalised |
| Calibration.PayloadPhase | baby_cry_detection/monitor/calibration.py:63-65 | the stripped, lower-cased phase the payload names when it is phase 1 or phase 2, and phase 1 otherwise |
| Calibration.LoadedPhase | baby_cry_detection/monitor/calibration.py:63-65 | loading an object keeps its known phase after stripping and lower-casing, falls back to phase 1 for any other text, and gives phase 1 when no phase is stored |
| Calibration.ControlOf | baby_cry_detection/monitor/calibration.py:63-70 | a control loaded from an object is valid: known phase, interval in [2, 600], normalised overrides |
| Calibration.LoadControlAsWritten | baby_cry_detection/monitor/calibration.py:53-70 | the loader as written raises exactly when the file decodes to something other than an object (non-finite numbers are not modelled, see "Left out") |
| Calibration.LoadControlAsWrittenRaises | baby_cry_detection/monitor/calibration.py:63 | a file holding `[]` or `null` makes the loader as written raise |
| Calibration.LoadControl | baby_cry_detection/monitor/calibration.py:53-70 | loading always gives a valid control; it agrees with the code wherever the code returns; a missing, undecodable or non-object file gives the default |
| Calibration.ValueRoundTrip | baby_cry_detection/monitor/calibration.py:208-216 | the `str` of a stored value parses back to the same value |
| Calibration.IntTextRoundTrip | baby_cry_detection/monitor/calibration.py:210-214 | the decimal text of a non-negative integer parses back to it |
| Calibration.FloatTextRoundTrip | baby_cry_detection/monitor/calibration.py:215-216 | the `str` of a canonical decimal parses back to it |
| Calibration.NormalizeEntryKept | baby_cry_detection/monitor/calibration.py:225-231 | an allowed key whose value parses is stored under its stripped upper-case name |
| Calibration.NormalizeEntry | baby_cry_detection/monitor/calibration.py:225-233 | one override entry is normalised; its meaning is stated by `NormalizeEntryKept`, `EntryRoundTrip` and `NormalizeFromNormal` |
| Calibration.EntryRoundTrip | baby_cry_detection/monitor/calibration.py:225-233 | a saved valid entry is normalised back to itself |
| Calibration.OverridesRoundTrip | baby_cry_detection/monitor/calibration.py:219-234 | normalising saved overrides gives the same overrides in the same order |
| Calibration.PhaseNamesCanonical | baby_cry_detection/monitor/calibration.py:87-88 | phase names are already stripped and lower case |
| Calibration.SerializedFields | baby_cry_detection/monitor/calibration.py:76-82 | the saved document holds the control's active flag, phase, interval and overrides under the keys loading reads |
| Calibration.Serialize | baby_cry_detection/monitor/calibration.py:76-82 | the saved document; its meaning is stated by `SerializedFields` and `SaveLoadRoundTrip` |
| Calibration.SaveLoadRoundTrip | baby_cry_detection/monitor/calibration.py:73-83 | loading what was saved gives back any valid control |
| Calibration.LoadSaveLoad | baby_cry_detection/monitor/calibration.py:53-83 | saving a loaded control and loading again gives the same control |
| Calibration.StartControl | baby_cry_detection/monitor/calibration.py:86-93 | a started control is valid |
| Calibration.StartOutcome | baby_cry_detection/monitor/calibration.py:86-93 | starting fails with the invalid-phase error exactly when the stripped lower-case phase is unknown; otherwise the control is active, in that phase, with no overrides and the clamped or default interval |
| Calibration.StopControl | baby_cry_detection/monitor/calibration.py:96-105 | the stopped control is inactive without overrides and keeps the phase and interval |
| Calibration.WithInterval | baby_cry_detection/monitor/calibration.py:108-117 | only the interval changes, to its clamp |
| Calibration.OverrideControl | baby_cry_detection/monitor/calibration.py:120-142 | a successful override of a valid control leaves it valid |
| Calibration.OverrideOutcome | baby_cry_detection/monitor/calibration.py:120-142 | it fails when inactive, for a key outside the phase's spec, or with the parse error; it succeeds exactly otherwise; on success only that key's override changes, to the parsed value, and active, phase and interval are kept |
| Calibration.SetLines | baby_cry_detection/monitor/calibration.py:172-173 | one line per key |
| Calibration.SummaryStart | baby_cry_detection/monitor/calibration.py:166-171 | the third line of the summary is `/cal_start PHASE INTERVAL` |
| Calibration.SummaryNoOverrides | baby_cry_detection/monitor/calibration.py:174-175 | without overrides the summary ends with the no-overrides line |
| Calibration.SummaryCount | baby_cry_detection/monitor/calibration.py:166-176 | with overrides the summary has three lines plus one per override |
| Calibration.SummarySets | baby_cry_detection/monitor/calibration.py:172-173 | after the start line come the `/cal_set` lines in sorted key order |
| Calibration.SortedKeysCount | baby_cry_detection/monitor/calibration.py:172 | sorting the distinct override keys lists each key once |
| Calibration.SetLinesAt | baby_cry_detection/monitor/calibration.py:172-173 | line k is `/cal_set KEY VALUE` for the k-th sorted key and its value's `str` |
| Calibration.SummaryLines | baby_cry_detection/monitor/calibration.py:166-176 | the stop summary's lines; their meaning is stated by `SummaryStart`, `SummaryNoOverrides`, `SummaryCount` and `SummarySets` |
| Calibration.StatusOf | baby_cry_detection/monitor/calibration.py:185-195 | a missing, undecodable or non-object status file reads as empty; an object reads as its members |
| Calibration.ControlStore.Load | baby_cry_detection/monitor/calibration.py:53-70 | loading entry by entry gives the corrected loader `LoadControl` of the file (the default control where the code as written raises) |
| Calibration.ControlStore.Save | baby_cry_detection/monitor/calibration.py:73-83 | the control file holds the serialised control, which loads back as the control when it is valid; the status file is unchanged |
| Calibration.ControlStore.Start | baby_cry_detection/monitor/calibration.py:86-93 | returns `StartControl`; an invalid phase leaves the file unchanged; otherwise the started control is stored and loads back |
| Calibration.ControlStore.Stop | baby_cry_detection/monitor/calibration.py:96-105 | returns the control the corrected loader reads and its stopped form, which is stored and loads back |
| Calibration.ControlStore.SetInterval | baby_cry_detection/monitor/calibration.py:108-117 | the control the corrected loader reads, with the clamped interval, is returned and stored |
| Calibration.ControlStore.SetOverride | baby_cry_detection/monitor/calibration.py:120-142 | returns `OverrideControl` of the control the corrected loader reads; a failure leaves the file unchanged; a success is stored and loads back |
| Calibration.ControlStore.WriteStatus | baby_cry_detection/monitor/calibration.py:179-195 | the status file holds the payload, reading it back gives the payload, and the control file is unchanged |
| Calibration.ControlStore.ReadStatus | baby_cry_detection/monitor/calibration.py:185-195 | the status file read as `StatusOf` says: empty unless it decodes to an object |
| Calibration.NormalizeOverrides | baby_cry_detection/monitor/calibration.py:219-234 | the loop builds exactly the normalised overrides |
| Calibration.BuildStopSummary | baby_cry_detection/monitor/calibration.py:166-176 | the loop builds the summary lines joined by newlines |
| CalibrationExamples.ParseOnePointFour | tests/test_monitor_calibration.py:24-27 | "1.4" parses as the float 1.4 |
| CalibrationExamples.CatWeightOverrideExample | tests/test_monitor_calibration.py:21-30 | starting phase 2 and setting `CAT_WEIGHT` to "1.4" succeeds with key `CAT_WEIGHT` and value 1.4, and loading the saved file shows the override |
| CalibrationExamples.ThresholdSessionBuilt | tests/test_monitor_calibration.py:34-35 | starting phase 1 at 12 s and setting `PRIMARY_CRY_THRESHOLD` to "0.7" builds a session that loads back unchanged |
| CalibrationExamples.ThresholdSessionSummary | tests/test_monitor_calibration.py:38-41 | that session's summary holds `/cal_start phase1 12` and `/cal_set PRIMARY_CRY_THRESHOLD 0.7` |
| CalibrationExamples.StopSummaryExample | tests/test_monitor_calibration.py:33-41 | stopping returns the running session, stores it inactive with phase 1 and 12 s, and its summary replays both commands |
| Poller.ClampWatch | baby_cry_detection/monitor/telegram_poller.py:244 | a watch interval is clamped into [2, 600] and kept when already inside |
| Poller.Render | baby_cry_detection/monitor/telegram_poller.py:151-275 | the text of every reply; `OutcomeText` states the outcome form |
| Poller.OutcomeText | baby_cry_detection/monitor/telegram_poller.py:160-162 | an outcome reads `TOPIC: OK. DETAIL` or `TOPIC: ERROR. DETAIL`, and the character after the topic tells success from failure |
| Poller.Command | baby_cry_detection/monitor/telegram_poller.py:117 | the command word, as `CommandIsFirstWord` states |
| Poller.HandlerFor | baby_cry_detection/monitor/telegram_poller.py:117-149 | the handler of a command, as `HandlerForCommands` states |
| Poller.OnStart | baby_cry_detection/monitor/telegram_poller.py:151-157 | the `/start` effect, stated by `StartRegisters` |
| Poller.OnStatus | baby_cry_detection/monitor/telegram_poller.py:159-162 | the `/status` effect, stated by `QueriesReport` |
| Poller.OnTest | baby_cry_detection/monitor/telegram_poller.py:164-171 | the `/test` effect, stated by `TestRespectsFlag` |
| Poller.OnCalHelp | baby_cry_detection/monitor/telegram_poller.py:173-177 | the `/cal` effect, stated by `QueriesReport` |
| Poller.OnCalStart | baby_cry_detection/monitor/telegram_poller.py:179-200 | the `/cal_start` effect, stated by `CalStartArguments` and `CalStartEffect` |
| Poller.OnCalSet | baby_cry_detection/monitor/telegram_poller.py:202-214 | the `/cal_set` effect, stated by `CalSetEffect` and `CalSetArguments` |
| Poller.OnCalStatus | baby_cry_detection/monitor/telegram_poller.py:216-222 | the `/cal_status` effect, stated by `QueriesReport` |
| Poller.OnCalParams | baby_cry_detection/monitor/telegram_poller.py:224-230 | the `/cal_params` effect, stated by `QueriesReport` |
| Poller.QueriesReport | baby_cry_detection/monitor/telegram_poller.py:159-230 | `/status`, `/cal`, `/cal_status` and `/cal_params` keep the watchers; each calls its callback once and replies with its report when it is supplied, and replies unavailable without a call otherwise |
| Poller.OnCalWatch | baby_cry_detection/monitor/telegram_poller.py:232-250 | the `/cal_watch` effect, stated by `CalWatchSchedules` |
| Poller.OnCalWatchStop | baby_cry_detection/monitor/telegram_poller.py:252-258 | the `/cal_watch_stop` effect, stated by `WatchStopRemovesOnlyThisChat` |
| Poller.OnCalStop | baby_cry_detection/monitor/telegram_poller.py:260-269 | the `/cal_stop` effect, stated by `CalStopClearsWatchers` |
| Poller.OnUpdate | baby_cry_detection/monitor/telegram_poller.py:109-149 | one update handled, stated by `BlankUpdateIgnored`, `UpdateKeepsOffset` and `RepliesExactlyToCommands` |
| Poller.UpdateId | baby_cry_detection/monitor/telegram_poller.py:77 | `int(update.get("update_id", 0))`, or `None` where that raises; used by `StepOffset` |
| Poller.Step | baby_cry_detection/monitor/telegram_poller.py:76-78 | one update of a batch, stated by `StepOffset`, `StepMovesOffset` and `SilentStep` |
| Poller.Poll | baby_cry_detection/monitor/telegram_poller.py:76-78 | a batch, stated by `PollGrows`, `PollPast` and `PollFrom` |
| Poller.TickOne | baby_cry_detection/monitor/telegram_poller.py:90-105 | one watcher's tick, stated by `TickOneDue`, `TickOneWatch`, `TickOneReplies` and `TickOneWatchers` |
| Poller.TickFrom | baby_cry_detection/monitor/telegram_poller.py:90-105 | the tick over the listed watchers, stated by `TickWatch`, `TickOutcome` and `TickReplies` |
| Poller.Tick | baby_cry_detection/monitor/telegram_poller.py:89-105 | the tick over every watcher, stated by `TickOutcome` and `TickReplies` |
| Poller.WatchInterval | baby_cry_detection/monitor/telegram_poller.py:233-244 | the chosen watch interval lies in [2, 600] |
| Poller.ReadUpdate | baby_cry_detection/monitor/telegram_poller.py:110-115 | a message that is answered has a non-empty chat id and a non-empty, stripped text |
| Poller.Advance | baby_cry_detection/monitor/telegram_poller.py:77 | the offset becomes max(old, id + 1), so it never decreases and passes the id; nothing else changes |
| Poller.TickOneDue | baby_cry_detection/monitor/telegram_poller.py:94-105 | a due watcher with a status callback gets the status reply and is rescheduled at now + max(2, interval), or removed when the status fails |
| Poller.BlankUpdateIgnored | baby_cry_detection/monitor/telegram_poller.py:110-115 | an update with a blank chat id or text changes nothing and sends nothing |
| Poller.HandlerForCommands | baby_cry_detection/monitor/telegram_poller.py:117-149 | exactly the eleven commands select a handler, and each watch command selects its own |
| Poller.RunReplies | baby_cry_detection/monitor/telegram_poller.py:117-149 | every handler sends exactly one reply; without a handler nothing is sent, called or changed |
| Poller.RepliesExactlyToCommands | baby_cry_detection/monitor/telegram_poller.py:117-149 | a message gets a reply exactly when its command is one of the eleven; any other command changes nothing |
| Poller.CommandIsFirstWord | baby_cry_detection/monitor/telegram_poller.py:117 | the command is the first word, lower-cased |
| Poller.OnlyWatchCommandsChangeWatchers | baby_cry_detection/monitor/telegram_poller.py:117-149 | only `/cal_watch`, `/cal_watch_stop` and `/cal_stop` change the watchers |
| Poller.RunKeepsWatchers | baby_cry_detection/monitor/telegram_poller.py:151-230 | the other handlers keep the watchers |
| Poller.CommandKeepsDistinct | baby_cry_detection/monitor/telegram_poller.py:232-269 | every command keeps one watcher per chat |
| Poller.CalWatchKeepsDistinct | baby_cry_detection/monitor/telegram_poller.py:246-249 | `/cal_watch` keeps one watcher per chat |
| Poller.StartRegisters | baby_cry_detection/monitor/telegram_poller.py:151-157 | `/start` passes the configured openness to registration and replies registered exactly when it succeeds, closed otherwise |
| Poller.AtMostOneCall | baby_cry_detection/monitor/telegram_poller.py:151-269 | a command invokes at most one callback, never one that was not supplied |
| Poller.TestRespectsFlag | baby_cry_detection/monitor/telegram_poller.py:164-171 | with the flag off `/test` replies disabled and never calls the test sender; with it on it calls the sender once for this chat |
| Poller.CalStartArguments | baby_cry_detection/monitor/telegram_poller.py:179-200 | the start callback is called exactly when it exists, a phase is given and any interval is an integer; without a phase the reply is the usage text, with a bad interval the integer error; the callback gets the lower-cased phase and the int interval |
| Poller.CalStartEffect | baby_cry_detection/monitor/telegram_poller.py:179-200 | each branch of `/cal_start` in full: unavailable, usage, bad interval, or the callback's outcome |
| Poller.CalSetEffect | baby_cry_detection/monitor/telegram_poller.py:202-214 | each branch of `/cal_set`: unavailable without the callback, usage with fewer than three parts, otherwise the callback's outcome on parts 1 and 2 of `split(maxsplit=2)`; what those parts are is stated by `CalSetArguments` |
| Poller.CalSetArguments | baby_cry_detection/monitor/telegram_poller.py:202-214 | for a command word, a key word and a value, the callback receives the key and the whole value, inner whitespace included, and its outcome is the reply; without the callback the reply is unavailable; the watchers are kept |
| Text.SplitTwice | baby_cry_detection/monitor/telegram_poller.py:207 | `f"{a} {b} {v}".split(maxsplit=2)` is `[a, b, v]` for words `a` and `b` and any `v` that starts with a non-space character |
| Poller.CalWatchSchedules | baby_cry_detection/monitor/telegram_poller.py:232-250 | other chats' watchers are untouched; a non-numeric argument gives usage and no change; otherwise the chat is watched from now at the argument's, the callback's or 15 s interval, clamped to [2, 600] |
| Poller.WatchStopRemovesOnlyThisChat | baby_cry_detection/monitor/telegram_poller.py:252-258 | only this chat's watcher is removed, and the reply says whether it existed |
| Poller.CalStopClearsWatchers | baby_cry_detection/monitor/telegram_poller.py:260-269 | all watchers are cleared exactly when the stop callback reports success, and the callback is called exactly when supplied |
| Poller.UpdateKeepsOffset | baby_cry_detection/monitor/telegram_poller.py:109-149 | handling an update never moves the offset |
| Poller.StepOffset | baby_cry_detection/monitor/telegram_poller.py:76-78 | an update without a readable id aborts the batch; otherwise the offset advances as `Advance` says |
| Poller.StepMovesOffset | baby_cry_detection/monitor/telegram_poller.py:77 | one update moves the offset forward past its id |
| Poller.PollGrows | baby_cry_detection/monitor/telegram_poller.py:76-78 | over a batch the offset never decreases |
| Poller.PollPast | baby_cry_detection/monitor/telegram_poller.py:76-78 | after a batch that completes, the offset is past every update id |
| Poller.PollFrom | baby_cry_detection/monitor/telegram_poller.py:76-78 | the final offset is the old one or one past an id in the batch |
| Poller.BatchGrows | baby_cry_detection/monitor/telegram_poller.py:76-78 | the poller's batch never lowers the offset |
| Poller.BatchPast | baby_cry_detection/monitor/telegram_poller.py:76-78 | the poller's completed batch leaves the offset past every id, even when ids arrive out of order |
| Poller.BatchFrom | baby_cry_detection/monitor/telegram_poller.py:76-78 | the final offset is the old one or one past an id of the batch |
| Poller.SilentStep | baby_cry_detection/monitor/telegram_poller.py:77-78 | an update with nothing to answer only advances the offset |
| Poller.OutOfOrderIds | baby_cry_detection/monitor/telegram_poller.py:77 | ids 5 then 3 leave the offset at 6 |
| Poller.TickOneWatch | baby_cry_detection/monitor/telegram_poller.py:90-105 | a tick of one watcher changes only that chat's entry, and only when due |
| Poller.TickOneReplies | baby_cry_detection/monitor/telegram_poller.py:90-101 | a due watcher gets exactly one reply and one status call (when the callback exists); one not due gets none |
| Poller.TickOneDistinct | baby_cry_detection/monitor/telegram_poller.py:96-105 | a tick keeps one watcher per chat |
| Poller.TickOneWatchers | baby_cry_detection/monitor/telegram_poller.py:96-105 | a tick leaves the watchers as they were, without the chat, or with the chat rescheduled |
| Poller.TickWatch | baby_cry_detection/monitor/telegram_poller.py:89-105 | after a whole tick, each chat's watcher is what its own due-or-not step made of it |
| Poller.TickOutcome | baby_cry_detection/monitor/telegram_poller.py:89-105 | no watcher appears; a watcher not due is untouched; a due one survives exactly when the status callback exists and succeeds, with its interval and a next time at least now + 2 |
| Poller.TickReplies | baby_cry_detection/monitor/telegram_poller.py:89-105 | a tick sends one reply to each due chat in watcher order and makes one status call per due chat; the offset is unchanged |
| Poller.TickKeepsDistinct | baby_cry_detection/monitor/telegram_poller.py:89-105 | a tick keeps one watcher per chat |
| Poller.TelegramStartPoller.constructor | baby_cry_detection/monitor/telegram_poller.py:14-47 | offset 0, no watchers, nothing sent or called |
| Poller.TelegramStartPoller.SafeReply | baby_cry_detection/monitor/telegram_poller.py:271-275 | one reply is sent and nothing else changes |
| Poller.TelegramStartPoller.HandleStart | baby_cry_detection/monitor/telegram_poller.py:151-157 | the new state is the old one with the `/start` effect applied (see `StartRegisters`) |
| Poller.TelegramStartPoller.HandleStatus | baby_cry_detection/monitor/telegram_poller.py:159-162 | the new state records the status call and its outcome reply |
| Poller.TelegramStartPoller.HandleTest | baby_cry_detection/monitor/telegram_poller.py:164-171 | the new state is the old one with the `/test` effect applied (see `TestRespectsFlag`) |
| Poller.TelegramStartPoller.HandleCalHelp | baby_cry_detection/monitor/telegram_poller.py:173-177 | the help text, or the unavailable reply |
| Poller.TelegramStartPoller.HandleCalStart | baby_cry_detection/monitor/telegram_poller.py:179-200 | the new state is the old one with the `/cal_start` effect applied (see `CalStartEffect`) |
| Poller.TelegramStartPoller.HandleCalSet | baby_cry_detection/monitor/telegram_poller.py:202-214 | the new state is the old one with the `/cal_set` effect applied (see `CalSetEffect`) |
| Poller.TelegramStartPoller.HandleCalStatus | baby_cry_detection/monitor/telegram_poller.py:216-222 | the calibration status outcome, or the unavailable reply |
| Poller.TelegramStartPoller.HandleCalParams | baby_cry_detection/monitor/telegram_poller.py:224-230 | the calibration params outcome, or the unavailable reply |
| Poller.TelegramStartPoller.HandleCalWatch | baby_cry_detection/monitor/telegram_poller.py:232-250 | the `/cal_watch` effect applied, keeping one watcher per chat (see `CalWatchSchedules`) |
| Poller.TelegramStartPoller.HandleCalWatchStop | baby_cry_detection/monitor/telegram_poller.py:252-258 | the `/cal_watch_stop` effect applied (see `WatchStopRemovesOnlyThisChat`) |
| Poller.TelegramStartPoller.HandleCalStop | baby_cry_detection/monitor/telegram_poller.py:260-269 | the `/cal_stop` effect applied (see `CalStopClearsWatchers`) |
| Poller.TelegramStartPoller.HandleUpdate | baby_cry_detection/monitor/telegram_poller.py:109-149 | the new state and whether handling raised are `OnUpdate` of the old state |
| Poller.TelegramStartPoller.Dispatch | baby_cry_detection/monitor/telegram_poller.py:117-149 | the selected handler's effect is applied to the state |
| Poller.TelegramStartPoller.HandleBatch | baby_cry_detection/monitor/telegram_poller.py:76-78 | the loop over a batch ends in the state `Poll` describes (offset properties in `BatchGrows`, `BatchPast`, `BatchFrom`) |
| Poller.TelegramStartPoller.TakeUpdate | baby_cry_detection/monitor/telegram_poller.py:77-78 | one update advances the offset and is then handled |
| Poller.TelegramStartPoller.WatchTick | baby_cry_detection/monitor/telegram_poller.py:89-105 | the loop over the watchers ends in the state `Tick` describes (see `TickOutcome`, `TickReplies`) |
| Poller.TelegramStartPoller.TickWatcher | baby_cry_detection/monitor/telegram_poller.py:90-105 | one watcher's tick, as `TickOne` describes |
| PollerExamples.StatusExample | tests/test_telegram_poller.py:18-32 | `/status` with a healthy check replies "Status: OK. …" after one status call |
| PollerExamples.TestDisabledExample | tests/test_telegram_poller.py:35-49 | `/test` with the flag off replies "Test command is disabled." and calls nothing |
| PollerExamples.CalStartWithInterval | baby_cry_detection/monitor/telegram_poller.py:184-200 | a `/cal_start` with a phase and an integer interval reaches the callback with both and replies with its outcome |
| PollerExamples.CalStartExample | tests/test_telegram_poller.py:71-93 | `/cal_start phase2 20` calls the start callback once with ("phase2", 20) and replies with its outcome |
| PollerExamples.CalSetDispatch | baby_cry_detection/monitor/telegram_poller.py:133-135 | a `/cal_set` message with a key and a value is dispatched to the set handler and reaches the callback with both |
| PollerExamples.CalSetExample | baby_cry_detection/monitor/telegram_poller.py:202-214 | `/cal_set CAT_WEIGHT 1.4` calls the set callback once with ("CAT_WEIGHT", "1.4") and replies with its outcome |
| PollerExamples.CalSetSpacedValue | baby_cry_detection/monitor/telegram_poller.py:207-212 | in `/cal_set CAT_WEIGHT 1.4 or so` the callback receives the value "1.4 or so" whole |

## Left out

- The poller's threads: `start`, `stop`, and `_run` and `_run_watch` as endless loops. This covers the `requests` long-polling and HTTP errors, `time.sleep`, `threading.Event` and joins. Only the per-update offset rule, the handling of one batch and one watch tick are modelled. The watchers dictionary shared between the two threads is modelled as if used by one thread at a time.
- The Telegram notifier behind `_safe_reply` is not part of this model. A reply is recorded in the outbox, and a failed send is not distinguished, because `_safe_reply` swallows it.
- The `/cal` help text and the callbacks' own logic are the caller's (`cli.py` and `api.py` are not part of this model). They are parameters of the poller.
- `cli.py`, `api.py`, `service.py`, `config.py`, `notifier.py`, `ollama_validator.py`, `gpu_check.py` and `backends/existing_model.py` are not part of this model. They are orchestration, HTTP, subprocess and model-loading code.
- The YAMNet verifier's `score`, `_ensure_loaded`, `_score_with_yamnet` and `_score_fallback`: TensorFlow, librosa and network I/O. Their effect on the runtime label is represented by the three flags only.
- The capture functions of `audio.py` (sounddevice, PulseAudio, ffmpeg, soundfile) and `_apply_mic_gain`. Samples are `real`s; the `float32` cast is not modelled.
- Floating point: scores, weights and thresholds are exact reals, so comparisons exactly at a threshold may differ from binary floats.
- Calibration.ParseTyped: accepts only plain decimal literals for float parameters (sign, digits, one point). Python's `float()` also takes exponents, `inf`, `nan` and digit-group underscores. The integer reading likewise omits underscores (`int("1_0")` is 10 in Python).
- Poller.WatchInterval, Poller.OnCalWatch and Poller.CalWatchSchedules: read the `/cal_watch` argument with the same plain decimal reading, so `1e2`, `inf` and `nan`, which Python's `float()` accepts (`inf` clamps to 600 and `nan` to 2), get the usage reply in the model.
- Poller.OnCalStart: reads the `/cal_start` interval with the same integer reading, so `1_0`, which Python's `int()` accepts, gets the not-an-integer reply in the model.
- The `str` of a float is modelled for ordinary magnitudes only. Python switches to exponent notation for very large or very small values.
- Calibration.Message: the text of the error for an unparsable value is Python's own conversion message and is not modelled.
- Text handling is ASCII: whitespace, `lower` and `upper` do not cover the rest of Unicode.
- Json.Repr quotes strings without Python's escaping.
- The directory creation in `save_control`, `write_status` and the recipient store's constructor, and file-system errors on writing.
- The `updated_at` timestamp is a parameter; the clock is not modelled.
- Yamnet.SuppressionExample and Yamnet.ClearBabyExample: state the test scenarios on the combining step with the group scores already taken; the name matching is covered by `GroupScoresAreMaxima`.
- Calibration.LoadControlAsWritten: the JSON model has no non-finite numbers. Python's `json.loads` reads `Infinity` and `NaN`; `int()` of infinity raises `OverflowError`, which `_to_interval` does not catch, so a control file with `"interval_seconds": Infinity` also makes `load_control` raise. `int()` of `nan` raises `ValueError`, which gives the default.
- Calibration.ControlStore.Load, Stop, SetInterval and SetOverride: use the corrected loader `LoadControl` from the "Findings" row, so a control file that decodes to something other than an object reads as the default control. `stop_calibration`, `set_calibration_interval` and `set_override` raise `AttributeError` there, through `load_control`, and leave the file as it was; the model's methods return normally and overwrite it.
- Poller.Config: the callbacks are fixed functions that never raise, so a poller sees the same answer at every call and no callback error. Poller.TickText, Poller.TickOutcome, Poller.TickReplies and Poller.RunReplies depend on this. In Python a raising callback aborts the rest of the update batch (logged by `_run`) or ends the watch thread, and two calls may answer differently; none of that is captured.
- Dict.Get and Json.GetOr: an object with a repeated key is read at its first occurrence, while Python's `json.loads` keeps the last one. Files the modelled code writes never repeat a key.
- Gating.GatingEngine.constructor: requires a non-negative `confirm_m`; Python's `deque(maxlen=...)` raises for a negative one.

## Findings

| source | as written | input that shows it | evidently intended | confidence | as-written member | corrected member |
|---|---|---|---|---|---|---|
| baby_cry_detection/monitor/calibration.py:63 | `load_control` calls `payload.get` on whatever the file decodes to, so valid JSON that is not an object (a list, `null`, a number) raises `AttributeError` | a control file containing `[]` | like a missing or undecodable file, the default control; the decode error already gives the default, and the only other raise left is `int()` of an infinite interval, which is not modelled (see "Left out") | not executed | Calibration.LoadControlAsWrittenRaises | Calibration.LoadControl |
