# MyTargets scoring core in Dafny

This project models the scoring logic of MyTargets, an archery training app, and proves properties about it. The app has two clients, and the model covers parts of both.

**TargetMaster (web client):**
- **Target scoring.** A click on the 800×800 target canvas is scored. There are four face types: WA 6-ring, WA 5-ring, the vertical/horizontal 3-spot faces and the WA full face. The 3-spot faces are scored against the nearest spot centre.
- **End screen.** It tracks the shots of the current end, the shot counter, the cumulative score, the "end complete" flag and the round number. Actions are click, save rollback, undo-last and next-end.
- **Per-round score recorder.** It keeps the saved scores, the current round, the −/+ clamping and undo.
- **Free score form.** It accepts, removes and submits scores, with submit validation, the stored record and the one-decimal average.
- **Session overview.** It scans rounds 1..100 with a gap cut-off, builds one end per scored round, totals them and picks the next round number.
- **Competition board.** Records are filtered by type and stable-sorted by a key. Type labels, type colours and score chips are modelled too.
- **Training history.** Sessions are grouped by month, the first month starts expanded, months can be toggled, and dates are written as "Y. MM. DD.".

**Android app:**
- **Shot-clock state machine.** It covers phases, durations, the countdown display offset, the special `EXIT` phase, and the horn and vibration signals.
- **Dimension converter.** It stores a dimension as "value unit" and reads it back.

Modules:
- `TargetScoring`, `EndRecording`: the target-input screen (TargetScoreInput.tsx).
- `ShotClock`: TimerFragmentBase.kt.
- `TrainingRecording`, `ScoreInput`, `SessionDetail`, `Competition`, `TrainingHistory`: the components of the same names.
- `DimensionConverter`: DimensionConverter.kt.
- Shared helpers:
  - `Common`: options, results, sums, decimal text.
  - `JsText`: JavaScript's `trim` and `parseInt`.
  - `Ordering`: a stable sort by a key, largest first, which is what `Array.prototype.sort` does with the source's comparators.
  - `ScoreRows`: the stored score rows and the outcomes of a score request.

Other modelling choices:
- Geometry is exact. Squared distances over `real` are compared with squared thresholds, so no square root is taken.
- Server replies, save/delete outcomes and the clock are parameters.
- The phase successor and signal count of the Android timer enumeration are not part of this model. The clock takes them as functions.

## Model

| member | source | states |
|---|---|---|
| TargetScoring.TargetTypeOf | Web/TargetMaster/src/components/TargetScoreInput.tsx:128-240 | each of the four known face names selects its face; every other or missing name selects the full face |
| TargetScoring.FirstRing | Web/TargetMaster/src/components/TargetScoreInput.tsx:129-155 | the ring chosen is the first whose threshold holds, no earlier ring holds, and -1 is returned exactly when no ring holds |
| TargetScoring.MinDistSq | Web/TargetMaster/src/components/TargetScoreInput.tsx:205-215 | the nearest-spot distance is no larger than the distance to any spot centre and equals the distance to one of them |
| TargetScoring.NearestSpotDistSq | Web/TargetMaster/src/components/TargetScoreInput.tsx:209-215 | the loop from "infinity" over the spot centres ends with a value below or equal to every centre's distance and attained by one centre |
| TargetScoring.MinIsUnique | Web/TargetMaster/src/components/TargetScoreInput.tsx:209-215 | any lower bound attained by a centre is the nearest-spot distance, so the loop and the specification agree |
| TargetScoring.CalculateScore | Web/TargetMaster/src/components/TargetScoreInput.tsx:110-280 | scoring a click gives exactly the score of its distance from the centre (or nearest spot) under the face's threshold table |
| TargetScoring.ScoreRange | Web/TargetMaster/src/components/TargetScoreInput.tsx:110-280 | every result has a score in 0..10 and a ring in -1..10, the ring is -1 exactly for a score of 0, the X ring scores 10 and a 10 is ring 0 or 1 |
| TargetScoring.FullFaceRingScores | Web/TargetMaster/src/components/TargetScoreInput.tsx:242-277 | on the full (default) face ring k in 1..10 scores exactly 11 - k |
| TargetScoring.FirstRingMonotone | Web/TargetMaster/src/components/TargetScoreInput.tsx:131-154 | for any threshold chain a larger distance never hits an earlier ring, and a miss stays a miss |
| TargetScoring.ScoreMonotone | Web/TargetMaster/src/components/TargetScoreInput.tsx:129-278 | on every face a larger distance never gives a higher score |
| TargetScoring.TablesAscending | Web/TargetMaster/src/components/TargetScoreInput.tsx:131-154 | every face's threshold chain is strictly ascending and non-empty |
| TargetScoring.MissBoundary | Web/TargetMaster/src/components/TargetScoreInput.tsx:149-277 | a click misses exactly beyond the face's outer limit: 1.2 on the WA 5-ring face, 1.0 on every other |
| TargetScoring.FiveRingOuterBand | Web/TargetMaster/src/components/TargetScoreInput.tsx:171-182 | on the WA 5-ring face a normalised distance in (1.0, 1.2] still scores 5 |
| TargetScoring.SpotOuterBand | Web/TargetMaster/src/components/TargetScoreInput.tsx:229-232 | on a 3-spot face a distance beyond the 0.834 ring and inside the spot scores 5 in ring 6 |
| TargetScoring.SixRingSixBand | Web/TargetMaster/src/components/TargetScoreInput.tsx:146-148 | on the WA 6-ring face a distance beyond the 0.666 ring and inside the 0.917 ring scores 6 in ring 5 |
| TargetScoring.SpotSixRingDiffers | Web/TargetMaster/src/components/TargetScoreInput.tsx:146-230 | a normalised distance in (0.834, 0.917] scores 6 on the WA 6-ring face but 5 on a 3-spot face |
| TargetScoring.NearestSpotDecides | Web/TargetMaster/src/components/TargetScoreInput.tsx:185-235 | on a 3-spot face no spot centre would give a higher score than the one the click is scored against |
| TargetScoring.ZoneColourOfScore | Web/TargetMaster/src/components/TargetScoreInput.tsx:684-748 | for any score in 0..10 (a 10 only from ring 0 or 1) the colour chain `BackgroundColour` gives the WA zone colour of the score (`ZoneColour`) |
| TargetScoring.ScoredHitColour | Web/TargetMaster/src/components/TargetScoreInput.tsx:684-748 | every scored hit gets the colour of its WA zone (white, black, blue, red, gold by pairs of scores) and never the gray fallback |
| EndRecording.ScoredHitCell | Web/TargetMaster/src/components/TargetScoreInput.tsx:833-841 | for a shot the scorer made (`ScoredShot`), the cell (`CellLabel`, `CellColour`, `CellTextColour`) shows 'X' exactly for the X ring and 'M' exactly for a miss, otherwise the score in 1..10; its colour is the WA zone colour of the score; its text is black exactly on a white cell |
| EndRecording.NullScoreCell | Web/TargetMaster/src/components/TargetScoreInput.tsx:833-841 | a loaded shot whose stored score is null shows no text, white on the gray fallback colour, and counts as 0 in the cumulative arithmetic (`Counted`) |
| EndRecording.ShotsOf | Web/TargetMaster/src/components/TargetScoreInput.tsx:66-72 | each loaded row becomes a shot, position by position, with its arrow number as id and its stored score kept as it is (null included); missing coordinates or ring become 0 |
| EndRecording.EndRecorder.constructor | Web/TargetMaster/src/components/TargetScoreInput.tsx:44-51 | a new end screen has no shots, counter 0, cumulative score 0 and is not complete |
| EndRecording.EndRecorder.Load | Web/TargetMaster/src/components/TargetScoreInput.tsx:54-107 | a loaded round replaces the shots with its rows in arrow-number order and sets the counter to their number; the cumulative score becomes `CumulativeTotal`, the total of rounds 1..current with null scores as 0, unless the first request throws |
| EndRecording.EndRecorder.Click | Web/TargetMaster/src/components/TargetScoreInput.tsx:305-396 | with all arrows shot nothing changes; otherwise the save request names the next arrow and the hit's score and ring; a successful save appends exactly that scored shot (`ScoredShot`), adds its score and sets "complete" once the counter reaches the arrow count; a failed save leaves list, counter and score as they were before the click; the counter equals the number of shots throughout |
| EndRecording.EndRecorder.UndoLastShot | Web/TargetMaster/src/components/TargetScoreInput.tsx:402-437 | with no shots nothing changes; otherwise the last arrow is deleted and, if that succeeds, exactly the last shot is removed, its score (`Counted`, a null as 0) subtracted and "complete" cleared |
| EndRecording.EndRecorder.NextEnd | Web/TargetMaster/src/components/TargetScoreInput.tsx:440-478 | the next end starts empty with counter 0, not complete, in the round after, with the cumulative score kept |
| ShotClock.Duration | Android_APP/shared/src/main/java/de/dreier/mytargets/shared/base/fragment/TimerFragmentBase.kt:124-131 | a phase has a duration exactly when it is preparation, shooting or countdown, and any other phase is refused |
| ShotClock.CeilSecondsRange | Android_APP/shared/src/main/java/de/dreier/mytargets/shared/base/fragment/TimerFragmentBase.kt:110-113 | with time left on a d-second timer the rounded-up seconds (`CeilSeconds`) are between 1 and d |
| ShotClock.ShootingThenCountdown | Android_APP/shared/src/main/java/de/dreier/mytargets/shared/base/fragment/TimerFragmentBase.kt:109-139 | while shooting the shown count (`Offset` plus `CeilSeconds`) stays above the warning time and at most the shooting time; in the countdown it runs from the warning time down to 1 |
| ShotClock.VibrationPattern | Android_APP/shared/src/main/java/de/dreier/mytargets/shared/base/fragment/TimerFragmentBase.kt:147-153 | the pattern for n signals is `IsVibrationPattern`: length 1 + 2n, starting with 150, then 400 and 750 for each signal |
| ShotClock.HornBlasts | Android_APP/shared/src/main/java/de/dreier/mytargets/shared/base/fragment/TimerFragmentBase.kt:159-168 | the horn sounds at most n times (once for n below 1) and not at all if it is already playing or the screen is detached |
| ShotClock.HornBlastsAttached | Android_APP/shared/src/main/java/de/dreier/mytargets/shared/base/fragment/TimerFragmentBase.kt:159-168 | an idle horn on a screen that stays attached sounds exactly n times |
| ShotClock.HornBlastsDetached | Android_APP/shared/src/main/java/de/dreier/mytargets/shared/base/fragment/TimerFragmentBase.kt:159-168 | a detach before attempt j stops the chain after at most j blasts |
| ShotClock.TimerScreen.constructor | Android_APP/shared/src/main/java/de/dreier/mytargets/shared/base/fragment/TimerFragmentBase.kt:52-56 | a new screen waits for start with no timer, no signal issued and the activity open |
| ShotClock.TimerScreen.PlaySignal | Android_APP/shared/src/main/java/de/dreier/mytargets/shared/base/fragment/TimerFragmentBase.kt:141-157 | for n > 0 exactly one horn request of n is added when sound is on and exactly one vibration pattern for n signals is appended when vibration is on (`Signalled`); for n <= 0 neither list changes |
| ShotClock.TimerScreen.ChangeStatus | Android_APP/shared/src/main/java/de/dreier/mytargets/shared/base/fragment/TimerFragmentBase.kt:82-122 | the whole new state (`ChangedTo`): the pending timer is cancelled; EXIT with exit-after-stop closes the activity and keeps everything else; EXIT otherwise restarts at WAIT_FOR_START; any phase that becomes current is shown, plays exactly its signals (horn request and vibration pattern), starts the 6 s "stop" timer, its per-second countdown or no timer, and sets its text or keeps the old one |
| ShotClock.TimerScreen.OnClick | Android_APP/shared/src/main/java/de/dreier/mytargets/shared/base/fragment/TimerFragmentBase.kt:78-80 | a tap gives exactly the new state `ChangeStatus` gives for the successor of the current phase |
| ShotClock.TimerScreen.OnTick | Android_APP/shared/src/main/java/de/dreier/mytargets/shared/base/fragment/TimerFragmentBase.kt:111-114 | a tick of a per-second countdown shows offset plus the rounded-up seconds left; other ticks change nothing |
| ShotClock.TimerScreen.OnFinish | Android_APP/shared/src/main/java/de/dreier/mytargets/shared/base/fragment/TimerFragmentBase.kt:101-118 | with a pending timer, its end gives exactly the new state `ChangeStatus` gives for the successor of the phase that started it; without one nothing changes |
| ShotClock.TimedTickShows | Android_APP/shared/src/main/java/de/dreier/mytargets/shared/base/fragment/TimerFragmentBase.kt:109-113 | a timed phase's timer lasts its duration in milliseconds and its ticks show its `Offset` plus the rounded-up seconds (`CeilSeconds`) |
| TrainingRecording.StepDown | Web/TargetMaster/src/components/TrainingRecording.tsx:165 | the "-" button never goes below 0, keeps a score at most 10 at most 10, and otherwise subtracts one |
| TrainingRecording.StepUp | Web/TargetMaster/src/components/TrainingRecording.tsx:183 | the "+" button never goes above 10, keeps a score of at least 0 at least 0, and otherwise adds one |
| TrainingRecording.SavedRoundKeepsRound | Web/TargetMaster/src/components/TrainingRecording.tsx:69-75 | a save (`SavedRound`) moves the round to the one the next score belongs to (`IntendedRound`) |
| TrainingRecording.UndoRoundKeepsRound | Web/TargetMaster/src/components/TrainingRecording.tsx:91-98 | the corrected undo (`UndoRound`) moves the round back to the one the removed score belonged to (`IntendedRound`) |
| TrainingRecording.UndoRoundAsWrittenLosesRound | Web/TargetMaster/src/components/TrainingRecording.tsx:91-98 | with two rounds, saving twice and undoing once with the undo as written (`UndoRoundAsWritten`) puts the round at 1 although the next score belongs to round 2 |
| TrainingRecording.TotalScoreBounds | Web/TargetMaster/src/components/TrainingRecording.tsx:32-33 | the total of n saved scores lies between 0 and 10n |
| TrainingRecording.Recorder.constructor | Web/TargetMaster/src/components/TrainingRecording.tsx:25-28 | recording starts at round 1 with score 0, no saved scores and not recording |
| TrainingRecording.Recorder.SetScore | Web/TargetMaster/src/components/TrainingRecording.tsx:35-37 | the score buttons and number field set the current score |
| TrainingRecording.Recorder.DecrementScore | Web/TargetMaster/src/components/TrainingRecording.tsx:165 | the "-" button applies the clamped step down |
| TrainingRecording.Recorder.IncrementScore | Web/TargetMaster/src/components/TrainingRecording.tsx:183 | the "+" button applies the clamped step up |
| TrainingRecording.Recorder.StartRecording | Web/TargetMaster/src/components/TrainingRecording.tsx:87-89 | starting turns recording on |
| TrainingRecording.Recorder.AddScore | Web/TargetMaster/src/components/TrainingRecording.tsx:39-85 | a score outside 0..10 is refused with nothing sent or changed; otherwise a request for the current round and arrow length+1 is sent; success appends the score, resets it to 0 and advances the round or, at the last round, stops recording; rejection or an exception changes nothing |
| TrainingRecording.Recorder.UndoLastScore | Web/TargetMaster/src/components/TrainingRecording.tsx:91-98 | with saved scores exactly the last is dropped and the round goes back to the one it belonged to (corrected); with none nothing changes |
| JsText.LeadingSpace | Web/TargetMaster/src/components/ScoreInput.tsx:23 | the prefix skipped is all white space and is followed by a non-space or the end |
| JsText.WithoutTrailingSpace | Web/TargetMaster/src/components/ScoreInput.tsx:37 | the suffix cut is all white space and is preceded by a non-space or the start |
| JsText.Trim | Web/TargetMaster/src/components/ScoreInput.tsx:37 | trimming gives the empty text exactly for all-space input, never begins or ends with white space and never grows |
| JsText.TrimPadded | Web/TargetMaster/src/components/ScoreInput.tsx:49-50 | trimming removes exactly the white space around a text that neither begins nor ends with white space |
| JsText.TrimIdempotent | Web/TargetMaster/src/components/ScoreInput.tsx:37-50 | trimming twice is trimming once |
| JsText.DigitRun | Web/TargetMaster/src/components/ScoreInput.tsx:23 | the digit run parsed is the longest prefix of decimal (or hex) digits |
| JsText.MagnitudeDecimal | Web/TargetMaster/src/components/ScoreInput.tsx:23 | decimal digits followed by a non-digit read as the value of the digits |
| JsText.ParseIntUnsigned | Web/TargetMaster/src/components/ScoreInput.tsx:23 | `ParseInt` reads a text starting with neither white space nor a sign as its leading digit run |
| JsText.ParseIntMinus | Web/TargetMaster/src/components/ScoreInput.tsx:23 | a leading minus negates the value of the digit run after it, and with no digits there is no number |
| JsText.MagnitudeOfDecimal | Web/TargetMaster/src/components/ScoreInput.tsx:23 | the digit run of the decimal text of n reads back as n |
| JsText.ParseIntDecimal | Web/TargetMaster/src/components/ScoreInput.tsx:23 | `ParseInt` of the decimal text of n gives n, and with a leading minus gives -n |
| JsText.ParseIntSkipsSpace | Web/TargetMaster/src/components/ScoreInput.tsx:23 | leading white space does not change the parse |
| JsText.ParseIntStopsAtNonDigit | Web/TargetMaster/src/components/ScoreInput.tsx:23 | parsing stops at the first non-digit, so "7.5" reads as 7 |
| JsText.ParseIntNoDigits | Web/TargetMaster/src/components/ScoreInput.tsx:23 | a text without any digit is not a number |
| JsText.ParseIntHex | Web/TargetMaster/src/components/ScoreInput.tsx:23 | after a `0x` prefix a run of hex digits reads as its radix-16 value, and a bare "0x" is not a number |
| ScoreInput.AcceptedScoreDecimal | Web/TargetMaster/src/components/ScoreInput.tsx:23-24 | the decimal text of any n in 0..10, after any leading white space, is accepted as n |
| ScoreInput.AcceptedScoreFraction | Web/TargetMaster/src/components/ScoreInput.tsx:23-24 | n in 0..10 followed by a decimal point and anything (such as "7.5") is accepted as n: the fraction is dropped |
| ScoreInput.AcceptedScoreHex | Web/TargetMaster/src/components/ScoreInput.tsx:23-24 | "0x" and hex digits are accepted exactly when their radix-16 value is at most 10 (so "0xA" as 10) |
| ScoreInput.AcceptedScoreOutOfRange | Web/TargetMaster/src/components/ScoreInput.tsx:23-29 | every number above 10 and every negative number is refused |
| ScoreInput.AcceptedScoreNoDigits | Web/TargetMaster/src/components/ScoreInput.tsx:23-29 | a text without any digit (the empty text, "abc") is refused |
| ScoreInput.WithoutIndex | Web/TargetMaster/src/components/ScoreInput.tsx:32-34 | an index in range removes exactly that position and keeps the rest in order; any other index leaves the list as it is |
| ScoreInput.WithoutIndexRemovesOne | Web/TargetMaster/src/components/ScoreInput.tsx:32-34 | removing an index in range takes exactly that one score out of the multiset and shortens the list by one |
| ScoreInput.RoundTenthClose | Web/TargetMaster/src/components/ScoreInput.tsx:75 | rounding to one decimal (`RoundTenth`) moves a value by at most 0.05 and keeps values in [0, 10] in [0, 10] |
| ScoreInput.AverageFacts | Web/TargetMaster/src/components/ScoreInput.tsx:74-75 | the shown average (`Average`) of scores in 0..10 lies in [0, 10], is 0 for no scores, and is within 0.05 of total over count |
| ScoreInput.MakeRecordFacts | Web/TargetMaster/src/components/ScoreInput.tsx:44-56 | a submitted record (`MakeRecord`) keeps the score list, its total between 0 and 10 per arrow, an average within 0.05 of total over count, a trimmed non-empty name, the time and the type |
| ScoreInput.ScoreForm.constructor | Web/TargetMaster/src/components/ScoreInput.tsx:15-20 | the form starts empty with type "practice", not loading, over the stored records |
| ScoreInput.ScoreForm.AddScore | Web/TargetMaster/src/components/ScoreInput.tsx:22-30 | an accepted text appends its score and clears the field; any other text changes nothing |
| ScoreInput.ScoreForm.RemoveScore | Web/TargetMaster/src/components/ScoreInput.tsx:32-34 | the list becomes the list without that index |
| ScoreInput.ScoreForm.Submit | Web/TargetMaster/src/components/ScoreInput.tsx:36-72 | submission is refused exactly when the trimmed name or organization is empty or there are no scores; otherwise the stored list grows by exactly the new record at its end |
| ScoreInput.ScoreForm.FinishSubmit | Web/TargetMaster/src/components/ScoreInput.tsx:64-71 | the deferred reset empties name, organization, scores and field and ends loading |
| ScoreRows.RowScores | Web/TargetMaster/src/components/SessionDetail.tsx:55-58 | each row counts its score, a missing score as 0 |
| SessionDetail.LoadEndScores | Web/TargetMaster/src/components/SessionDetail.tsx:40-90 | the loop computes exactly the ends and the number of rounds requested that the scan specification `Scan` gives |
| SessionDetail.ScanFacts | Web/TargetMaster/src/components/SessionDetail.tsx:49-81 | the scan (`Scan`) lists, in strictly increasing order, exactly the scored rounds among those requested, each with its total and 10 per arrow as maximum (`EndOf`); it never goes past round 100 and requests all 100 rounds when nothing is found; it stops early only at an empty or failed round more than 5 past the last end, and every earlier empty round was within 5 of the last end found before it (`EndsBelow`) |
| SessionDetail.NextRound | Web/TargetMaster/src/components/SessionDetail.tsx:92-99 | the next round is above every listed round and one past one of them, or 1 with none listed |
| SessionDetail.NextRoundAfterScan | Web/TargetMaster/src/components/SessionDetail.tsx:92-99 | after a scan the next round follows the last end and is at most 101 |
| SessionDetail.EndWithinMax | Web/TargetMaster/src/components/SessionDetail.tsx:55-64 | an end's total lies between 0 and its maximum when its scores are in 0..10 |
| SessionDetail.TotalWithinMax | Web/TargetMaster/src/components/SessionDetail.tsx:105-106 | the session total lies between 0 and the session maximum when all stored scores are in 0..10 |
| Ordering.SortDescFacts | Web/TargetMaster/src/components/Competition.tsx:32-43 | the stable sort is a permutation, orders by non-increasing key and keeps the order of items with equal key |
| Ordering.SortDescConstantKey | Web/TargetMaster/src/components/Competition.tsx:40-42 | with all keys equal the sort leaves the list as it is |
| Competition.FilterRecords | Web/TargetMaster/src/components/Competition.tsx:27-30 | "all" keeps every record; another filter keeps exactly the records of that type |
| Competition.FilterConcat | Web/TargetMaster/src/components/Competition.tsx:27-30 | filtering keeps the original order |
| Competition.SortRecordsFacts | Web/TargetMaster/src/components/Competition.tsx:32-43 | the board (`SortRecords`) is a permutation of the filtered records, non-increasing in the chosen key, with equal keys in stored order |
| Competition.UnknownSortKeyKeepsOrder | Web/TargetMaster/src/components/Competition.tsx:40-42 | an unknown sort key leaves the filtered order unchanged |
| Competition.TypeLabelFacts | Web/TargetMaster/src/components/Competition.tsx:45-52 | `TypeLabel` shows a type as itself exactly when it is not one of the three known types, whose labels differ |
| Competition.TypeColourFacts | Web/TargetMaster/src/components/Competition.tsx:54-61 | `TypeColour` is gray exactly for an unknown type |
| Competition.ChipClassFacts | Web/TargetMaster/src/components/Competition.tsx:155-159 | `ChipClass` is green from 9, yellow for 7 and 8, red below 7, and a higher score never gets a lower chip |
| TrainingHistory.InMonth | Web/TargetMaster/src/components/TrainingHistory.tsx:44-54 | a month's group holds exactly the sessions of that month |
| TrainingHistory.KeysFacts | Web/TargetMaster/src/components/TrainingHistory.tsx:44-59 | the month keys are distinct, are exactly the months of the sessions, and start with the first session's month |
| TrainingHistory.GroupsPartition | Web/TargetMaster/src/components/TrainingHistory.tsx:44-54 | every session is in its own month's group and no other, and groups keep list order |
| TrainingHistory.Push | Web/TargetMaster/src/components/TrainingHistory.tsx:44-54 | the callback appends the session to the end of its month's list (opening an empty one if needed) and leaves every other month's list as it was |
| TrainingHistory.GroupStep | Web/TargetMaster/src/components/TrainingHistory.tsx:44-54 | one callback step keeps the keys and lists equal to the grouping of the sessions seen so far |
| TrainingHistory.GroupByMonth | Web/TargetMaster/src/components/TrainingHistory.tsx:44-54 | the reduce yields the month keys in order of first appearance and for each the sessions of that month |
| TrainingHistory.Toggled | Web/TargetMaster/src/components/TrainingHistory.tsx:75-83 | toggling flips the one month and leaves every other as it was |
| TrainingHistory.ToggleTwice | Web/TargetMaster/src/components/TrainingHistory.tsx:75-83 | toggling a month twice restores the set |
| TrainingHistory.PadStart2 | Web/TargetMaster/src/components/TrainingHistory.tsx:93 | a text of two or more characters is kept; a shorter one is filled with '0' in front to exactly two characters, ending with the text |
| TrainingHistory.TwoDigits | Web/TargetMaster/src/components/TrainingHistory.tsx:93 | a number below 100 padded by `PadStart2` has exactly two digits that read back as the number |
| TrainingHistory.FormatDateFields | Web/TargetMaster/src/components/TrainingHistory.tsx:91-94 | `FormatDate` writes the year, ". ", two month digits, ". ", two day digits and ".", and the digits read back as month and day |
| TrainingHistory.HistoryView.constructor | Web/TargetMaster/src/components/TrainingHistory.tsx:28-30 | the screen starts with no sessions and no month expanded |
| TrainingHistory.HistoryView.Load | Web/TargetMaster/src/components/TrainingHistory.tsx:34-72 | a successful load groups its sessions and expands exactly the first month, or leaves the set when there are none; a failed load changes nothing |
| TrainingHistory.HistoryView.ToggleMonth | Web/TargetMaster/src/components/TrainingHistory.tsx:75-83 | the expanded set becomes its toggle at that month |
| DimensionConverter.IndexOf | Android_APP/app/src/main/java/de/dreier/mytargets/base/db/typeconverters/DimensionConverter.kt:30 | the index is -1 exactly when the character is absent, otherwise its first occurrence |
| DimensionConverter.DimensionDBValue | Android_APP/app/src/main/java/de/dreier/mytargets/base/db/typeconverters/DimensionConverter.kt:24-26 | the stored text is as long as value, one space and unit together |
| DimensionConverter.ParseDimension | Android_APP/app/src/main/java/de/dreier/mytargets/base/db/typeconverters/DimensionConverter.kt:29-34 | reading fails exactly when the text has no space |
| DimensionConverter.RoundTrip | Android_APP/app/src/main/java/de/dreier/mytargets/base/db/typeconverters/DimensionConverter.kt:24-39 | writing then reading gives back the dimension whenever the value text has no space, and the unit read is the unit's stored form (`UnitDBValue`) |
| DimensionConverter.ParseThenWrite | Android_APP/app/src/main/java/de/dreier/mytargets/base/db/typeconverters/DimensionConverter.kt:24-34 | every text that reads back is exactly what writing the result produces, with a space-free value |
| DimensionConverter.SpaceInValueSplitsEarly | Android_APP/app/src/main/java/de/dreier/mytargets/base/db/typeconverters/DimensionConverter.kt:30-32 | a value with a space is split at it: "1 0" with unit "m" reads back as "1" and "0 m" |

## Left out

- Network and storage I/O (`fetch`, the training API, `localStorage`), `alert`, console logging and rendering (canvas drawing, SVG, JSX markup) apart from the score cells under the target are outside the model. Server outcomes are method parameters.
- The click-to-canvas scaling of TargetScoreInput.tsx is left out. Clicks arrive already in canvas coordinates.
- JavaScript floating point is modelled with exact `real`. Square roots are avoided by comparing squared distances, so rounding at a ring border may differ from the browser's.
- The end ratio written to `localStorage` by "next end" is not modelled.
- Kotlin `Int` overflow in `getDuration * 1000` is not modelled: durations are unbounded integers.
- `CountDownTimer`, `MediaPlayer`, `Vibrator` and `activity.finish` are not modelled as objects. They appear as the pending timer, the horn and vibration requests, and a finished flag.
- ShotClock.HornBlasts: the horn's completion callback and `isDetached` are modelled as a detach predicate per attempt, not as real time.
- The horn's `isPlaying` check after the first blast is not modelled.
- `Dimension.from` and `value.toFloat()` are left out. The value is kept as opaque text, so a value text that is not a number is not refused.
- `Dimension.Unit.toString()` is the unit text itself.
- Dates are (year, month, day) numbers. Parsing a date text into them is left out.
- Month keys are (year, month) pairs rather than the formatted "Y년 M월" text.
- The record timestamp is kept as milliseconds rather than an ISO text. The record id is the decimal text of the same milliseconds.
- The number field of the per-round recorder holds an integer. `Number(...)` of a non-numeric or fractional entry (NaN, 7.5) is not modelled.
- JsText.ParseInt: `-0`, precision loss for very long digit runs and radix prefixes other than `0x`/`0X` are not modelled.
- The name, organization and type setters of the score form are not modelled. They only assign a field.
- The `isSaving` and `isLoading` flags and the session-list refresh callbacks are left out.
- TrainingHistory.ShownMaximum (the "total / rounds·10" text) has no property stated. Number formatting (`toFixed`, `toLocaleString`) is not modelled.
- TrainingRecording.Recorder.CompletedRounds is the length of the list and carries no contract of its own. The arrow number length+1 is stated in `AddScore`.
- EndRecording.EndRecorder.Click and EndRecording.EndRecorder.UndoLastShot are modelled as atomic handlers: each runs from start to finish before the next event, and the invariant they keep (counter equals the number of shots) is proved only under that assumption. In the source (TargetScoreInput.tsx:343-388) a click shows the new shot before the save request is awaited, and nothing blocks a second click while a save is pending. The cumulative score update at line 379 reads the value captured when its click started. So with two clicks whose saves overlap, the second save overwrites the first and one score is missing from the total. A failed first save restores the list and counter captured before the first click (lines 385-386), which also drops the second shot although that one was saved.
- EndRecording.EndRecorder.Load does not model the per-round requests issued while the totals are being added up. They are given as a function from round to reply.

## Findings

| source | as written | input that shows it | evidently intended | confidence | as-written member | corrected member |
|---|---|---|---|---|---|---|
| Web/TargetMaster/src/components/TrainingRecording.tsx:91-98 | undo moves the round back whenever it is above 1, even when the undone score was the last round's, whose save did not advance the round | two rounds: save, save (round stays 2, recording stops), undo: round 1 with one score saved, so the next save is sent as round 1, arrow 2 | move the round back only when the undone score had advanced it, that is when fewer scores than rounds were saved | not executed | TrainingRecording.UndoRoundAsWritten, TrainingRecording.UndoRoundAsWrittenLosesRound | TrainingRecording.UndoRound, TrainingRecording.UndoRoundKeepsRound |
