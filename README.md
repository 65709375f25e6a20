# Midnight Snack — listening gate and checkpoint player

The page script of Midnight Snack (`script.js`) runs two event-driven state machines.

- **The listening gate.** The player must hear every option sound to its end once before the Next button lets them into the game.
- **The checkpoint narration player.** A story narration pauses at six fixed checkpoints. At each one it waits for the player to pick the right sound among the option buttons. The player may re-listen to the segment before the checkpoint as often as they like. A correct answer resumes the story after 400 ms.

Each machine is modelled twice.

- **Pure model.** A datatype holds the page state and each event handler is a function on it (`ListeningGate`, `Story`). Lemmas about whole event sequences are proved on top of it (`ListeningGate`, `StoryTheory`).
- **Imperative model.** A class keeps the script's variables as fields and the buttons' states and audio elements as arrays (`ListeningPhase.ListeningPage`, `StoryPhase.StoryPlayer`). Each handler is a method that updates them in place.

Each event-handler method is proved to leave the page in exactly the state that the pure function of the same name computes. There are three exceptions. `ListeningPhase.ListeningPage.ListenClick` is proved equal to `ListeningGate.Audition`. `StoryPhase.StoryPlayer.OnEnded` and `StoryPhase.StoryPlayer.FireResume` follow the code as written and are proved equal to `Story.OnEndedAsWritten` and `Story.FireResumeAsWritten` (see "## Findings"). The helper methods are proved equal either to a pure function with a different name or to an explicit record update; the table says which. The `forEach` loops over buttons and clips are `while` loops proved against `Media.SetAll` and `Media.StopAll`.

Other modelling choices:

- Time is a `real` number of seconds. The checkpoints are 18, 27, 35, 42, 52 and 58 s, and the tolerance is 0.05 s.
- Calling `play()` or `pause()` on the narration runs the `play` or `pause` handler on the spot. This happens only when the paused state actually changes, as for an HTML media element.
- A playing narration that reaches its end first pauses (running `pause`) and then runs `ended`. A paused narration moved to its end runs only `ended`.
- The 400 ms timer of a correct answer is a count of pending resumes, fired by an explicit event.
- `play()` on a narration at its end first seeks back to 0, as for an HTML media element. A time update moves the element off its end.
- The event dispatchers `Story.Step` and `ListeningGate.Step` apply the browser's own filtering. Clicks on disabled buttons are not delivered, and a listen clip fires `ended` only while it plays. The handlers themselves are modelled as written.

## Model

| member | source | states |
|---|---|---|
| Media.Stop | script.js:26 | a clip ends paused at position 0 |
| Media.StopAll | script.js:24-28 | every clip of a group is paused and rewound, so none plays |
| Media.SetAll | script.js:82-84 | every option button gets the same display state |
| ListeningGate.Init | script.js:16-22 | page as loaded: nothing heard, Next disabled, gate invariant holds |
| ListeningGate.AnswerSetSize | script.js:39 | the distinct answers number at most the buttons, and exactly as many iff no answer repeats |
| ListeningGate.SubsetSize | script.js:39 | a heard set drawn from the answers is no larger than the answer set, and equal in size only when equal |
| ListeningGate.ClipEnded | script.js:33-47 | the clip's answer joins the heard set; on first hearing only that button is marked heard and the status counts the remaining sounds; Next is enabled exactly when none remain; hearing again changes nothing but the clip; the gate invariant is kept |
| ListeningGate.Audition | script.js:24-53 | on a listen click, every other clip is rewound and paused, and the clicked one plays from 0. Heard set, marks and Next are unchanged, and at most one clip plays |
| ListeningGate.NextClick | script.js:56-59 | shows the guessing phase and changes nothing else; keeps the invariant when Next was enabled |
| ListeningGate.Step | script.js:30-59 | keeps the answers and array lengths; an event the page does not deliver changes nothing. Undelivered events are a click on a disabled Next, an event of an absent button, and `ended` of a clip that is not playing |
| ListeningGate.Run | script.js:30-59 | delivering a sequence of events in order keeps the answers and array lengths |
| ListeningGate.RunPrefix | script.js:30-59 | running a prefix of an event sequence is one step followed by the rest of that prefix |
| ListeningGate.StepHeard | script.js:33-36 | one event adds to the heard set the answer of a clip that ended while playing, and nothing else |
| ListeningGate.EndedAtShift | script.js:33-36 | an end at a later position of a sequence is an end at the previous position of its tail |
| ListeningGate.HeardIffPlayedToEnd | script.js:33-36 | after any events, an answer is heard iff it was heard before or a clip carrying it ended while playing at some point; so the set never shrinks |
| ListeningGate.RunPreservesInv | script.js:33-59 | the gate invariant holds after any sequence of events |
| ListeningGate.NextEnabledIffAllHeard | script.js:39-45 | Next is enabled iff there are buttons, their answers are distinct and every answer was heard |
| ListeningGate.GuessingOnlyAfterAllHeard | script.js:39-59 | from the loaded page, the guessing phase is shown only after every (distinct) sound was heard |
| ListeningGate.CompletionOnce | script.js:35-45 | once Next is enabled, another clip ending changes nothing but that clip |
| ListeningGate.RunKeepsMarks | script.js:35-37 | with distinct answers, a button is marked heard iff its answer is in the heard set, after any events |
| ListeningGate.MarkedIffPlayedToEnd | script.js:33-53 | with distinct answers, button j is marked heard iff at some point its own clip ended while playing; clicks never mark |
| ListeningGate.LastClick | script.js:49-53 | the last listen button clicked, or -1 exactly when no listen button was clicked |
| ListeningGate.LastClickIs | script.js:49-53 | the last click is on j iff there is a click on j and no listen click after it |
| ListeningGate.PlayingClip | script.js:24-53 | a clip plays after any events only if the last click started it, or there was no click and it was already playing |
| ListeningGate.PlayingOnlyAfterOwnClick | script.js:24-53 | from the loaded page, a clip plays only when the last listen click was on its own button |
| ListeningGate.MarkedOnlyAfterOwnClick | script.js:24-53 | with distinct answers, a marked button's clip ended at a moment when the last listen click was on that button; a clip stopped by another click never counts |
| ListeningGate.TwoSoundsScenario | script.js:24-59 | two buttons: the `ended` of a clip stopped by another click is not delivered, progress after one sound, an early Next is not delivered, all heard after the other, then the guessing phase |
| ListeningPhase.ListeningPage.constructor | script.js:16-22 | state equals `ListeningGate.Init` |
| ListeningPhase.ListeningPage.StopAllListeningAudio | script.js:24-28 | loop leaves every clip as `StopAll` of the old clips |
| ListeningPhase.ListeningPage.ClipEnded | script.js:33-47 | in-place update equals `ListeningGate.ClipEnded` |
| ListeningPhase.ListeningPage.ListenClick | script.js:49-53 | in-place update equals `ListeningGate.Audition` |
| ListeningPhase.ListeningPage.NextClick | script.js:56-59 | in-place update equals `ListeningGate.NextClick` |
| Story.Init | script.js:73-80 | setup: no checkpoint reached, choices locked, narration paused at 0 and not ended, no resume pending, invariant holds |
| Story.SetOptionsState | script.js:82-84 | all option buttons get the given state, nothing else changes |
| Story.LockChoices | script.js:85 | answers refused and every option `Locked`, nothing else changes |
| Story.UnlockChoices | script.js:86 | answers accepted and every mark cleared, nothing else changes |
| Story.StopAllOptionAudio | script.js:88-92 | every option clip paused and rewound, nothing else changes |
| Story.Seek | script.js:110 | the position becomes the target, the narration is no longer at its end, nothing else changes |
| Story.OnPlay | script.js:129-134 | play disabled, choices locked with every option `Locked`, every option clip stopped; status kept iff re-listening, else "listen carefully"; nothing else changes |
| Story.OnPause | script.js:136-138 | play re-enabled when no checkpoint is active; with one active nothing changes; only the play flag can change |
| Story.SegmentStart | script.js:119 | the replayed segment starts at 0 or an earlier checkpoint, at or after every earlier checkpoint (so at the one immediately before), and more than the tolerance before the active one |
| Story.NeededAnswer | script.js:187-190 | the answer checked is one of the six, and the active checkpoint's answer when one is active |
| Story.MediaPlay | script.js:129-134 | the narration plays and is not at its end; an ended one restarts from 0, any other keeps its position; starting a paused narration locks the choices, disables play and stops every option clip; a playing one changes at most its clock |
| Story.MediaPause | script.js:136-138 | pausing a playing narration with no active checkpoint re-enables play, and play changes in no other case; nothing else changes |
| Story.PlayClick | script.js:103-114 | no-op while a checkpoint is active (no skip); restarts index and position after the end or past the last checkpoint; otherwise plays on from where it was; keeps the invariant |
| Story.RelistenClick | script.js:116-127 | no-op without an active checkpoint; otherwise locks, disables play and replays from the segment start, keeping checkpoint and index; keeps the invariant |
| Story.PauseAt | script.js:144-153 | pause exactly on the checkpoint, disable play, enable re-listen, unlock the choices; nothing else changes |
| Story.OnTimeUpdate | script.js:140-170 | reaching the next checkpoint within 0.05 s pauses exactly on it and advances the index by one; a replay returns to the same checkpoint; otherwise only the clock moves and the element leaves its end; keeps the invariant |
| Story.ReachNext | script.js:143-154 | the next checkpoint becomes active, the index grows by exactly one, choices unlock |
| Story.ReturnToActive | script.js:157-168 | a replayed segment stops on the same checkpoint with the same index, no longer re-listening, choices unlocked |
| Story.ReachEnd | script.js:136-138 | reaching the end leaves the narration paused and ended; a playing one runs `pause` first, a paused one fires nothing |
| Story.OnEndedAsWritten | script.js:172-180 | as written: no active checkpoint, every option shown `Locked`, re-listen disabled, play enabled and labelled Replay, index kept, and the lock flag left as it was |
| Story.OnEnded | script.js:172-180 | as intended: the same writes with the choices locked, so the invariant holds afterwards from any state; position, clips and pending resumes kept |
| Story.OptionClick | script.js:183-209 | ignored while locked; a wrong pick marks only that option wrong; a correct pick releases the checkpoint, locks all options and schedules exactly one resume; keeps the invariant |
| Story.FireResumeAsWritten | script.js:200-203 | as written: the timer enables play and the narration plays, keeping checkpoint and index, even when a checkpoint became active meanwhile |
| Story.FireResume | script.js:200-203 | as intended: with no active checkpoint the narration plays as written; with one, nothing changes but the pending count, so the invariant is kept |
| Story.Step | script.js:103-209 | one delivered event keeps every index in range; clicks on disabled or absent buttons and an unset timer change nothing; the narration's end and the timer run the corrected handlers |
| Story.Run | script.js:103-209 | any event sequence keeps every index in range |
| StoryTheory.StopsIncreasing | script.js:72-78 | the checkpoints strictly increase, more than the tolerance apart, and each has an answer |
| StoryTheory.StepPreservesInv | script.js:73-209 | every delivered event keeps the index and unlock invariants |
| StoryTheory.RunPreservesInv | script.js:73-209 | the invariants hold after any sequence of events |
| StoryTheory.NoSkip | script.js:103-104 | a play click while a checkpoint awaits its answer changes nothing |
| StoryTheory.NoSkipWhileAwaiting | script.js:103-209 | while a checkpoint awaits its answer outside a replay, any event but a time update keeps the index, plays only as a replay, and releases the checkpoint only by its correct answer or the end |
| StoryTheory.ResumeTimerSkipsCheckpoint | script.js:140-203 | as written, a checkpoint reached while the resume timer is pending is played past by the timer and the next checkpoint follows unanswered; the corrected timer keeps it awaiting its answer |
| StoryTheory.ResumeFixAgreesIffNoCheckpoint | script.js:200-203 | on a paused narration the corrected timer gives the written one's state iff no checkpoint is active |
| StoryTheory.SeekAfterEndPlaysOn | script.js:103-113 | after the end, a seek back to 20 s clears `ended`, so play continues from 20 s with no restart |
| StoryTheory.FallbackUnreachable | script.js:185-190 | whenever an option click is accepted a checkpoint is active, so the fallback answer is never used |
| StoryTheory.EndedWhileAwaitingAcceptsAnswers | script.js:172-190 | as written, the narration ending while checkpoint 1 awaits its answer breaks the invariant: the choices stay unlocked with no active checkpoint, and a click is accepted through the fallback answer |
| StoryTheory.EndedFixAgreesIffLocked | script.js:172-180 | the corrected `ended` handler gives the same state as the written one iff the choices were locked |
| StoryTheory.EndedWhilePlayingAsWritten | script.js:172-180 | under the invariant, a playing narration's end runs the same under both handlers |
| StoryTheory.StepIndex | script.js:106-147 | one event keeps the index, advances it by one by reaching that checkpoint, or resets it to 0 by play after the end |
| StoryTheory.ReachedIsRange | script.js:143-147 | between restarts, the checkpoints reached are exactly the consecutive indices passed, none skipped |
| StoryTheory.ReachedInOrder | script.js:143-147 | between restarts, checkpoints are reached at strictly increasing timestamps |
| StoryTheory.RunAppend | script.js:103-209 | delivering two event sequences one after the other is delivering their concatenation |
| StoryTheory.ReplayTicks | script.js:157-159 | during a replay, time updates short of the checkpoint only move the clock |
| StoryTheory.ReplayReturnsToSameCheckpoint | script.js:116-168 | re-listen, then time updates, bring the player back to the same checkpoint and index, paused on it, choices unlocked |
| StoryTheory.FirstCheckpointScenario | script.js:103-203 | play, reach 18 s, a wrong then a right pick, the timer: the story resumes towards checkpoint 2 |
| StoryPhase.StoryPlayer.constructor | script.js:73-100 | state equals `Story.Init` |
| StoryPhase.StoryPlayer.SetOptionsState | script.js:82-84 | loop writes the state on every button: `SetAll` of the old states |
| StoryPhase.StoryPlayer.LockChoices | script.js:85 | equals `Story.LockChoices` |
| StoryPhase.StoryPlayer.UnlockChoices | script.js:86 | equals `Story.UnlockChoices` |
| StoryPhase.StoryPlayer.StopAllOptionAudio | script.js:88-92 | loop leaves every clip as `StopAll` of the old clips |
| StoryPhase.StoryPlayer.OnPlay | script.js:129-134 | equals `Story.OnPlay` |
| StoryPhase.StoryPlayer.MediaPlay | script.js:113 | equals `Story.MediaPlay` |
| StoryPhase.StoryPlayer.OnPause | script.js:136-138 | equals `Story.OnPause` |
| StoryPhase.StoryPlayer.MediaPause | script.js:144 | equals `Story.MediaPause` |
| StoryPhase.StoryPlayer.Seek | script.js:110 | equals `Story.Seek` |
| StoryPhase.StoryPlayer.PlayClick | script.js:103-114 | equals `Story.PlayClick` |
| StoryPhase.StoryPlayer.RestartStory | script.js:106-111 | index, checkpoint, replay flag and position reset |
| StoryPhase.StoryPlayer.RelistenClick | script.js:116-127 | equals `Story.RelistenClick` |
| StoryPhase.StoryPlayer.PrepareReplay | script.js:120-123 | re-listening with choices locked and play disabled |
| StoryPhase.StoryPlayer.PauseAt | script.js:144-153 | equals `Story.PauseAt` |
| StoryPhase.StoryPlayer.OfferChoices | script.js:149-153 | play disabled, re-listen enabled, choices unlocked |
| StoryPhase.StoryPlayer.OnTimeUpdate | script.js:140-170 | equals `Story.OnTimeUpdate` |
| StoryPhase.StoryPlayer.ReachCheckpoint | script.js:143-154 | equals `Story.ReachNext` |
| StoryPhase.StoryPlayer.ReturnToCheckpoint | script.js:157-168 | equals `Story.ReturnToActive` |
| StoryPhase.StoryPlayer.OnEnded | script.js:172-180 | equals `Story.OnEndedAsWritten`, the handler as written |
| StoryPhase.StoryPlayer.Finish | script.js:173-179 | the `ended` handler's own writes |
| StoryPhase.StoryPlayer.OptionClick | script.js:183-209 | equals `Story.OptionClick` |
| StoryPhase.StoryPlayer.NeededAnswer | script.js:187-190 | returns `Story.NeededAnswer` of the current state |
| StoryPhase.StoryPlayer.RejectAnswer | script.js:204-206 | only that option is marked wrong |
| StoryPhase.StoryPlayer.AcceptAnswer | script.js:192-203 | checkpoint released, choices locked, one resume scheduled |
| StoryPhase.StoryPlayer.FireResume | script.js:200-203 | equals `Story.FireResumeAsWritten`, the timer as written |

`Story.Inv` is the invariant behind the lemmas above:

- `activeCheckpoint` is -1 or `stopIdx - 1`.
- The choices are unlocked only while a checkpoint is active, the narration is paused and not re-listening, play is disabled and re-listen is enabled.
- Re-listening happens only with an active checkpoint.
- While a checkpoint is active and not re-listening, the narration is paused (no skipping).

`ListeningGate.Inv` is the gate's invariant:

- The heard answers are answers of listen buttons.
- Next is enabled exactly when as many answers were heard as there are buttons.
- The guessing phase is shown only if Next is enabled.

## Findings

| source | as written | input that shows it | evidently intended | confidence | as-written member | corrected member |
|---|---|---|---|---|---|---|
| script.js:177 | the `ended` handler shows every option locked with `setOptionsState('locked')`, but leaves `interactionLock` as it was | play, then a time update at 17.96 s: checkpoint 1 is active and the choices are unlocked. Then the narration element ends while paused there, for example after a seek to its end. No checkpoint is active, yet a click on "Ice-Cream" is accepted through the fallback answer (script.js:190) and schedules a resume (`StoryTheory.EndedWhileAwaitingAcceptsAnswers`) | `lockChoices()`, so that no answer is accepted once the story is finished | not executed; medium, since it needs the browser to fire `ended` at a paused element | Story.OnEndedAsWritten | Story.OnEnded |

| script.js:200-203 | the resume timer plays the narration without checking `activeCheckpoint` | play, a time update at 17.96 s, the right pick "Ice-Cream", then within the 400 ms a seek to 26.96 s: checkpoint 2 is active and paused. The timer then plays the narration, and a time update at 34.96 s reaches checkpoint 3 with checkpoint 2 unanswered (`StoryTheory.ResumeTimerSkipsCheckpoint`) | resume only when `activeCheckpoint === -1`, as the play click already requires (script.js:104) | not executed; low, since it needs a seek within 400 ms of a correct answer | Story.FireResumeAsWritten | Story.FireResume |

`Story.Step` and the lemmas of `StoryTheory` use the corrected `Story.OnEnded` and `Story.FireResume`. `StoryTheory.EndedFixAgreesIffLocked` shows that the two handlers differ only when the end arrives while the choices are unlocked. `StoryTheory.EndedWhilePlayingAsWritten` shows that they agree whenever the narration was playing.

A correct pick marks its option `correct` (script.js:193), but `lockChoices` (script.js:198) marks every option `locked` in the same handler. The model follows the code: after a correct pick every option is `Locked`.

## Left out

- The hash router (script.js:4-13): it toggles CSS classes for navigation and has no state of its own.
- Status texts, button labels and `data-state` strings are replaced by tags (`Status`, `GateStatus`, `OptionState`); the wording of messages is not modelled.
- The progress bar (script.js:94-97) is floating-point display arithmetic. It is not modelled.
- Rejected `play()` promises and the `try`/`catch` around media calls (script.js:26, 52, 90): every media call is modelled as succeeding.
- The early `return` when the narration element is missing (script.js:69): the model assumes the element exists.
- The re-listen button is assumed to exist. The `if (relistenBtn)` guards (script.js:116, 150, 165, 175, 197) are always taken.
- Real time: the media clock and the 400 ms timer appear only as explicit events (`TimeUpdated`, `ResumeTimerFired`). Nothing constrains when they arrive, except that a resume fires only after a correct pick scheduled it.
- StoryPhase.StoryPlayer.OnEnded: it follows the `ended` handler as written, so the invariant lemmas, which are stated for the corrected handler, do not cover the class when the narration ends while a checkpoint awaits its answer.
- StoryPhase.StoryPlayer.FireResume: it follows the timer as written, so the invariant lemmas do not cover the class when a checkpoint is reached while a resume is pending.
- A `play` started from the element's own controls is not an event of the model, whereas native pauses (`PausedExternally`) and seeks (`TimeUpdated`) are. Such a play at an active checkpoint would also run past it.
- A time update that jumps past the next checkpoint while a checkpoint awaits its answer (a native seek) reaches that next checkpoint, because script.js:143 does not check `activeCheckpoint`. The model keeps this; `StoryTheory.NoSkipWhileAwaiting` therefore excludes time updates.
- The initial `disabled` flags of play and re-listen come from the page markup, which is not part of this model. They are parameters of `Story.Init`. Next is taken to start disabled.
- The media clock is unconstrained. A `TimeUpdated(t)` event may carry any time, including while the narration is paused and including backwards. Time updates therefore also stand for seeks through the element's native controls.
- Handlers run one at a time to completion, in the order their events arrive. Browser event queuing is not modelled.
