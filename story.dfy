/**
 * The checkpoint narration player of script.js (lines 61-209) as a state-transition system.
 * A `Session` holds the story state, the narration element, the controls and the option buttons;
 * each event handler is a function from the session before the event to the session after it.
 */
module Story {
  import opened Media

  /** Checkpoint timestamps in seconds, strictly increasing (script.js:72). */
  const Stops: seq<real> := [18.0, 27.0, 35.0, 42.0, 52.0, 58.0]

  /** The answer required at each checkpoint, index-aligned with `Stops` (script.js:78). */
  const CorrectAnswers: seq<string> := ["Ice-Cream", "Carrots", "Chips", "Cookies", "Sprite", "Chocolate-Bar"]

  /** How far before a checkpoint a time update already counts as reaching it (0.05 s). */
  const Tolerance: real := 0.05

  /** The status line, as a tag in place of its text; indices are 0-based (the page shows index + 1). */
  datatype Status =
    | Initial
    | ReplayingFromStart
    | ListenCarefully
    | AtCheckpoint(index: int)
    | ReplayingSegment(index: int)
    | Finished
    | CorrectResuming
    | TryAnother

  datatype Session = Session(
    // story state (script.js:73-80)
    stopIdx: int,
    activeCheckpoint: int,
    reListening: bool,
    interactionLock: bool,
    // controls
    playDisabled: bool,
    relistenDisabled: bool,
    playLabelReplay: bool,
    status: Status,
    // the narration element
    position: real,
    paused: bool,
    ended: bool,
    // resumes scheduled by correct answers and not yet fired
    pendingResumes: nat,
    // the option buttons: their `data-answer`, `data-state` and audio clip
    answers: seq<string>,
    states: seq<OptionState>,
    clips: seq<Clip>)

  /** Every index the handlers use is in range. */
  predicate Wf(s: Session)
  {
    0 <= s.stopIdx <= |Stops| &&
    -1 <= s.activeCheckpoint < |Stops| &&
    |s.states| == |s.answers| &&
    |s.clips| == |s.answers|
  }

  /**
   * The invariant the handlers keep: the active checkpoint is the one most recently reached;
   * the choices are unlocked only while the narration is paused at an active checkpoint,
   * not re-listening, with play disabled and re-listen enabled; and while a checkpoint awaits its
   * answer outside a replay, the narration does not play (no skipping).
   */
  predicate Inv(s: Session)
  {
    Wf(s) &&
    (s.activeCheckpoint == -1 || s.activeCheckpoint == s.stopIdx - 1) &&
    (!s.interactionLock ==>
       s.activeCheckpoint != -1 && !s.reListening && s.paused && s.playDisabled && !s.relistenDisabled) &&
    (s.reListening ==> s.activeCheckpoint != -1) &&
    (s.activeCheckpoint != -1 && !s.reListening ==> s.paused)
  }

  /**
   * The session when the script has run its setup (script.js:73-80, 100): no checkpoint reached,
   * the narration paused at its start, every option locked. The initial disabled flags of the two
   * buttons come from the page markup.
   */
  function Init(answers: seq<string>, playDisabled: bool, relistenDisabled: bool): (s: Session)
    ensures Inv(s) && s.answers == answers
    ensures s.stopIdx == 0 && s.activeCheckpoint == -1 && s.interactionLock && AllIn(s.states, Locked)
    ensures s.paused && s.position == 0.0 && !s.ended && s.pendingResumes == 0
  {
    Session(0, -1, false, true,
            playDisabled, relistenDisabled, false, Initial,
            0.0, true, false,
            0,
            answers, SetAll(seq(|answers|, _ => Neutral), Locked), seq(|answers|, _ => Rewound))
  }

  // ---- helpers of script.js ----

  function SetOptionsState(s: Session, st: OptionState): (r: Session)
    requires Wf(s)
    ensures Wf(r) && AllIn(r.states, st) && r.(states := s.states) == s
  {
    s.(states := SetAll(s.states, st))
  }

  /** `lockChoices` (script.js:85): refuse answers and show every option locked. */
  function LockChoices(s: Session): (r: Session)
    requires Wf(s)
    ensures Wf(r) && r.interactionLock && AllIn(r.states, Locked)
    ensures r.(interactionLock := s.interactionLock, states := s.states) == s
  {
    SetOptionsState(s.(interactionLock := true), Locked)
  }

  /** `unlockChoices` (script.js:86): accept answers and clear every option's mark. */
  function UnlockChoices(s: Session): (r: Session)
    requires Wf(s)
    ensures Wf(r) && !r.interactionLock && AllIn(r.states, Neutral)
    ensures r.(interactionLock := s.interactionLock, states := s.states) == s
  {
    SetOptionsState(s.(interactionLock := false), Neutral)
  }

  /** `stopAllOptionAudio` (script.js:88-92): no option clip plays afterwards. */
  function StopAllOptionAudio(s: Session): (r: Session)
    requires Wf(s)
    ensures Wf(r) && AllStopped(r.clips) && r.(clips := s.clips) == s
  {
    s.(clips := StopAll(s.clips))
  }

  /** Setting `currentTime`: the narration is no longer at its end. */
  function Seek(s: Session, t: real): (r: Session)
    ensures r.position == t && !r.ended && r.(position := s.position, ended := s.ended) == s
  {
    s.(position := t, ended := false)
  }

  /** Start of the segment that leads to checkpoint `k`: the start of the narration or the previous checkpoint. */
  function SegmentStart(k: int): (t: real)
    requires 0 <= k < |Stops|
    ensures t == 0.0 || t in Stops[..k]
    ensures t + Tolerance < Stops[k]
    ensures forall j :: 0 <= j < k ==> Stops[j] <= t
  {
    if k == 0 then 0.0 else Stops[k - 1]
  }

  /** The answer an option click is checked against (script.js:188-190). */
  function NeededAnswer(s: Session): (a: string)
    requires Wf(s)
    ensures a in CorrectAnswers
    ensures s.activeCheckpoint >= 0 ==> a == CorrectAnswers[s.activeCheckpoint]
  {
    if s.activeCheckpoint >= 0 then CorrectAnswers[s.activeCheckpoint]
    else CorrectAnswers[if s.stopIdx - 1 > 0 then s.stopIdx - 1 else 0]
  }

  // ---- media element handlers ----

  /** The `play` handler (script.js:129-134). */
  function OnPlay(s: Session): (r: Session)
    requires Wf(s)
    ensures Wf(r) && r.playDisabled && r.interactionLock && AllIn(r.states, Locked) && AllStopped(r.clips)
    ensures s.reListening ==> r.status == s.status
    ensures !s.reListening ==> r.status == ListenCarefully
    ensures r.(playDisabled := s.playDisabled, interactionLock := s.interactionLock,
               states := s.states, clips := s.clips, status := s.status) == s
  {
    StopAllOptionAudio(LockChoices(s.(playDisabled := true)).(status := if s.reListening then s.status else ListenCarefully))
  }

  /**
   * `mainAudio.play()`: an element at its end first seeks back to its start; then a paused
   * narration starts and its `play` handler runs, while a playing one is left alone.
   */
  function MediaPlay(s: Session): (r: Session)
    requires Wf(s)
    ensures Wf(r) && !r.paused && !r.ended
    ensures r.stopIdx == s.stopIdx && r.activeCheckpoint == s.activeCheckpoint
    ensures r.reListening == s.reListening && r.pendingResumes == s.pendingResumes
    ensures s.ended ==> r.position == 0.0
    ensures !s.ended ==> r.position == s.position
    ensures s.paused ==> r.interactionLock && r.playDisabled && AllIn(r.states, Locked) && AllStopped(r.clips)
    ensures !s.paused ==> r.(position := s.position, ended := s.ended) == s
  {
    var q := if s.ended then Seek(s, 0.0) else s;
    if q.paused then OnPlay(q.(paused := false)) else q
  }

  /** The `pause` handler (script.js:136-138). */
  function OnPause(s: Session): (r: Session)
    ensures s.activeCheckpoint == -1 ==> !r.playDisabled
    ensures s.activeCheckpoint != -1 ==> r == s
    ensures r.(playDisabled := s.playDisabled) == s
  {
    if s.activeCheckpoint == -1 then s.(playDisabled := false) else s
  }

  /** `mainAudio.pause()`: a playing narration pauses and its `pause` handler runs. */
  function MediaPause(s: Session): (r: Session)
    requires Wf(s)
    ensures Wf(r) && r.paused
    ensures r.(playDisabled := s.playDisabled, paused := s.paused) == s
    ensures r.playDisabled != s.playDisabled ==> !s.paused && s.activeCheckpoint == -1 && !r.playDisabled
    ensures !s.paused && s.activeCheckpoint == -1 ==> !r.playDisabled
  {
    if s.paused then s else OnPause(s.(paused := true))
  }

  // ---- the event handlers ----

  /**
   * Click on play (script.js:103-114). Nothing happens while a checkpoint awaits its answer
   * (no skipping); after the narration ended or all checkpoints were passed, the story restarts
   * from the beginning; then the narration plays.
   */
  function PlayClick(s: Session): (r: Session)
    requires Wf(s)
    ensures Wf(r)
    ensures Inv(s) ==> Inv(r)
    ensures s.activeCheckpoint != -1 ==> r == s
    ensures s.activeCheckpoint == -1 ==> !r.paused && r.activeCheckpoint == -1
    ensures s.activeCheckpoint == -1 && (s.ended || s.stopIdx >= |Stops|) ==>
              r.stopIdx == 0 && !r.reListening && r.position == 0.0 && !r.ended
    ensures s.activeCheckpoint == -1 && !s.ended && s.stopIdx < |Stops| ==>
              r.stopIdx == s.stopIdx && r.position == s.position && r.reListening == s.reListening
  {
    if s.activeCheckpoint != -1 then s
    else
      var q := if s.ended || s.stopIdx >= |Stops|
               then Seek(s.(stopIdx := 0, activeCheckpoint := -1, reListening := false), 0.0).(status := ReplayingFromStart)
               else s;
      MediaPlay(q)
  }

  /**
   * Click on re-listen (script.js:116-127). Without an active checkpoint nothing happens; otherwise
   * the choices lock and the narration replays the segment leading to the active checkpoint.
   */
  function RelistenClick(s: Session): (r: Session)
    requires Wf(s)
    ensures Wf(r)
    ensures Inv(s) ==> Inv(r)
    ensures s.activeCheckpoint == -1 ==> r == s
    ensures s.activeCheckpoint != -1 ==>
              r.activeCheckpoint == s.activeCheckpoint && r.stopIdx == s.stopIdx &&
              r.reListening && r.interactionLock && r.playDisabled && !r.paused &&
              r.position == SegmentStart(s.activeCheckpoint) &&
              r.position + Tolerance < Stops[s.activeCheckpoint]
  {
    if s.activeCheckpoint == -1 then s
    else
      var k := s.activeCheckpoint;
      var q := LockChoices(s.(reListening := true)).(playDisabled := true, status := ReplayingSegment(k));
      MediaPlay(Seek(q, SegmentStart(k)))
  }

  /** The narration has just reached checkpoint `k`: pause there exactly and offer the choices. */
  function PauseAt(s: Session, k: int): (r: Session)
    requires Wf(s) && 0 <= k < |Stops|
    ensures Wf(r)
    ensures r == s.(position := Stops[k], paused := true, ended := false,
                    playDisabled := true, relistenDisabled := false, interactionLock := false,
                    states := SetAll(s.states, Neutral), status := AtCheckpoint(k))
  {
    var q := Seek(MediaPause(s), Stops[k]);
    UnlockChoices(q.(playDisabled := true, relistenDisabled := false)).(status := AtCheckpoint(k))
  }

  /**
   * The `timeupdate` handler (script.js:140-170), the clock having moved to `t`; an element whose
   * clock moved is no longer at its end.
   * The next checkpoint is reached when `t` is within the tolerance of it, unless a segment is being
   * replayed; a replayed segment ends at the active checkpoint, which stays the same.
   */
  function OnTimeUpdate(s: Session, t: real): (r: Session)
    requires Wf(s)
    ensures Wf(r)
    ensures Inv(s) ==> Inv(r)
    ensures !s.reListening && s.stopIdx < |Stops| && t >= Stops[s.stopIdx] - Tolerance ==>
              r.paused && r.position == Stops[s.stopIdx] &&
              r.activeCheckpoint == s.stopIdx && r.stopIdx == s.stopIdx + 1 &&
              r.playDisabled && !r.relistenDisabled && !r.interactionLock && !r.reListening &&
              AllIn(r.states, Neutral)
    ensures s.reListening && s.activeCheckpoint != -1 && t >= Stops[s.activeCheckpoint] - Tolerance ==>
              r.paused && r.position == Stops[s.activeCheckpoint] &&
              r.activeCheckpoint == s.activeCheckpoint && r.stopIdx == s.stopIdx &&
              r.playDisabled && !r.relistenDisabled && !r.interactionLock && !r.reListening
    ensures (s.reListening || s.stopIdx >= |Stops| || t < Stops[s.stopIdx] - Tolerance) &&
            (!s.reListening || s.activeCheckpoint == -1 || t < Stops[s.activeCheckpoint] - Tolerance) ==>
              r == s.(position := t, ended := false)
  {
    var s := Seek(s, t);
    if !s.reListening && s.stopIdx < |Stops| && t >= Stops[s.stopIdx] - Tolerance then ReachNext(s)
    else if s.reListening && s.activeCheckpoint != -1 && t >= Stops[s.activeCheckpoint] - Tolerance then ReturnToActive(s)
    else s
  }

  /** The narration reached the next checkpoint (script.js:144-154): it becomes the active one. */
  function ReachNext(s: Session): (r: Session)
    requires Wf(s) && s.stopIdx < |Stops|
    ensures Wf(r)
    ensures Inv(s) && !s.reListening ==> Inv(r)
    ensures r.paused && r.position == Stops[s.stopIdx] && r.activeCheckpoint == s.stopIdx && r.stopIdx == s.stopIdx + 1
    ensures r.playDisabled && !r.relistenDisabled && !r.interactionLock && r.reListening == s.reListening
    ensures AllIn(r.states, Neutral)
  {
    PauseAt(s, s.stopIdx).(activeCheckpoint := s.stopIdx, stopIdx := s.stopIdx + 1)
  }

  /** A replayed segment reached the active checkpoint again (script.js:159-168): same checkpoint, same next index. */
  function ReturnToActive(s: Session): (r: Session)
    requires Wf(s) && 0 <= s.activeCheckpoint
    ensures Wf(r)
    ensures Inv(s) ==> Inv(r)
    ensures r.paused && r.position == Stops[s.activeCheckpoint] && r.activeCheckpoint == s.activeCheckpoint
    ensures r.stopIdx == s.stopIdx && !r.reListening
    ensures r.playDisabled && !r.relistenDisabled && !r.interactionLock
  {
    PauseAt(s, s.activeCheckpoint).(reListening := false)
  }

  /**
   * The narration element reaching its end. A playing narration pauses first and fires `pause`;
   * a paused one (seeked to its end) fires no `pause`.
   */
  function ReachEnd(s: Session): (r: Session)
    ensures r.paused && r.ended
    ensures !s.paused && s.activeCheckpoint == -1 ==> !r.playDisabled
    ensures r.(paused := s.paused, ended := s.ended, playDisabled := s.playDisabled) == s
    ensures s.paused ==> r.playDisabled == s.playDisabled
  {
    if s.paused then s.(ended := true) else OnPause(s.(paused := true, ended := true))
  }

  /**
   * The `ended` handler as written (script.js:172-180). The options are shown locked through
   * `setOptionsState` (script.js:177), but `interactionLock` keeps whatever value it had.
   */
  function OnEndedAsWritten(s: Session): (r: Session)
    requires Wf(s)
    ensures Wf(r)
    ensures r.paused && r.ended && r.activeCheckpoint == -1 && !r.reListening
    ensures r.relistenDisabled && !r.playDisabled && r.playLabelReplay && r.status == Finished
    ensures AllIn(r.states, Locked) && r.stopIdx == s.stopIdx && r.interactionLock == s.interactionLock
  {
    SetOptionsState(ReachEnd(s).(activeCheckpoint := -1, reListening := false, relistenDisabled := true, status := Finished), Locked)
      .(playLabelReplay := true, playDisabled := false)
  }

  /**
   * The `ended` handler as evidently intended: `lockChoices` in place of `setOptionsState('locked')`,
   * so that no answer is accepted once no checkpoint is active. It establishes the invariant from
   * any state.
   */
  function OnEnded(s: Session): (r: Session)
    requires Wf(s)
    ensures Wf(r) && Inv(r)
    ensures r.paused && r.ended && r.activeCheckpoint == -1 && !r.reListening && r.interactionLock
    ensures r.relistenDisabled && !r.playDisabled && r.playLabelReplay && r.status == Finished
    ensures AllIn(r.states, Locked) && r.stopIdx == s.stopIdx
    ensures r.position == s.position && r.clips == s.clips && r.pendingResumes == s.pendingResumes
  {
    LockChoices(ReachEnd(s).(activeCheckpoint := -1, reListening := false, relistenDisabled := true, status := Finished))
      .(playLabelReplay := true, playDisabled := false)
  }

  /**
   * Click on option `i` (script.js:183-209). Ignored while the choices are locked. A wrong pick
   * marks that option wrong and changes nothing else. A correct pick releases the checkpoint,
   * locks the choices (which overwrites the option's `correct` mark) and schedules one resume.
   */
  function OptionClick(s: Session, i: nat): (r: Session)
    requires Wf(s) && i < |s.answers|
    ensures Wf(r)
    ensures Inv(s) ==> Inv(r)
    ensures s.interactionLock ==> r == s
    ensures !s.interactionLock && s.answers[i] != NeededAnswer(s) ==>
              r == s.(states := s.states[i := Wrong], status := TryAnother)
    ensures !s.interactionLock && s.answers[i] == NeededAnswer(s) ==>
              r.activeCheckpoint == -1 && r.interactionLock && r.relistenDisabled &&
              r.pendingResumes == s.pendingResumes + 1 && r.stopIdx == s.stopIdx &&
              r.paused == s.paused && r.position == s.position && r.playDisabled == s.playDisabled &&
              AllIn(r.states, Locked) && r.status == CorrectResuming
  {
    if s.interactionLock then s
    else if s.answers[i] == NeededAnswer(s) then
      var q := s.(states := s.states[i := Correct], status := CorrectResuming);
      LockChoices(q.(activeCheckpoint := -1, relistenDisabled := true, pendingResumes := s.pendingResumes + 1))
    else
      s.(states := s.states[i := Wrong], status := TryAnother)
  }

  /**
   * The 400 ms timer set by a correct answer fires, as written (script.js:200-203): play is enabled
   * and the narration plays, whether or not a checkpoint has become active in the meantime.
   */
  function FireResumeAsWritten(s: Session): (r: Session)
    requires Wf(s) && s.pendingResumes > 0
    ensures Wf(r)
    ensures Inv(s) && s.activeCheckpoint == -1 ==> Inv(r)
    ensures !r.paused && r.pendingResumes == s.pendingResumes - 1
    ensures r.activeCheckpoint == s.activeCheckpoint && r.stopIdx == s.stopIdx
    ensures r.position == if s.ended then 0.0 else s.position
    ensures s.paused ==> r.playDisabled && r.interactionLock
    ensures !s.paused ==> !r.playDisabled && r.interactionLock == s.interactionLock
  {
    MediaPlay(s.(pendingResumes := s.pendingResumes - 1, playDisabled := false))
  }

  /**
   * The resume timer as evidently intended: it resumes the story only when no checkpoint is active.
   * A checkpoint reached while the timer was pending keeps the narration paused until it is answered.
   */
  function FireResume(s: Session): (r: Session)
    requires Wf(s) && s.pendingResumes > 0
    ensures Wf(r)
    ensures Inv(s) ==> Inv(r)
    ensures r.pendingResumes == s.pendingResumes - 1
    ensures r.activeCheckpoint == s.activeCheckpoint && r.stopIdx == s.stopIdx
    ensures s.activeCheckpoint == -1 ==> !r.paused
    ensures s.activeCheckpoint == -1 && s.paused ==> r.playDisabled && r.interactionLock
    ensures s.activeCheckpoint == -1 && !s.paused ==> !r.playDisabled && r.interactionLock == s.interactionLock
    ensures s.activeCheckpoint != -1 ==> r.(pendingResumes := s.pendingResumes) == s
  {
    if s.activeCheckpoint == -1 then FireResumeAsWritten(s)
    else s.(pendingResumes := s.pendingResumes - 1)
  }

  // ---- events as the page delivers them ----

  datatype Event =
    | PlayClicked
    | RelistenClicked
    | OptionClicked(index: nat)
    | TimeUpdated(time: real)
    | PausedExternally
    | NarrationEnded
    | ResumeTimerFired

  /**
   * Deliver one event. The browser does not deliver clicks to disabled buttons or to buttons that
   * do not exist, and a timer fires only once it was set. The end of the narration and the resume
   * timer run the corrected handlers.
   */
  function Step(s: Session, e: Event): (r: Session)
    requires Wf(s)
    ensures Wf(r)
    ensures (e == PlayClicked && s.playDisabled) || (e == RelistenClicked && s.relistenDisabled) ||
            (e.OptionClicked? && e.index >= |s.answers|) || (e == ResumeTimerFired && s.pendingResumes == 0) ==>
              r == s
    ensures e == NarrationEnded ==> r == OnEnded(s)
    ensures e == ResumeTimerFired && s.pendingResumes > 0 ==> r == FireResume(s)
  {
    match e
    case PlayClicked => if s.playDisabled then s else PlayClick(s)
    case RelistenClicked => if s.relistenDisabled then s else RelistenClick(s)
    case OptionClicked(i) => if i < |s.answers| then OptionClick(s, i) else s
    case TimeUpdated(t) => OnTimeUpdate(s, t)
    case PausedExternally => MediaPause(s)
    case NarrationEnded => OnEnded(s)
    case ResumeTimerFired => if s.pendingResumes > 0 then FireResume(s) else s
  }

  /** Deliver a sequence of events in order, each handler running to completion. */
  function Run(s: Session, es: seq<Event>): (r: Session)
    requires Wf(s)
    ensures Wf(r)
    decreases |es|
  {
    if es == [] then s else Run(Step(s, es[0]), es[1..])
  }
}
