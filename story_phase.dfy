/**
 * The story player of script.js as the script runs it: module-level variables updated in place by
 * event handlers, and loops over the option buttons and their audio elements. Each handler is
 * proved to move the page from one state to the next exactly as the corresponding `Story` function.
 */
module StoryPhase {
  import opened Media
  import Story

  class StoryPlayer {
    // story state (script.js:73-80)
    var stopIdx: int
    var activeCheckpoint: int
    var reListening: bool
    var interactionLock: bool
    // controls
    var playDisabled: bool
    var relistenDisabled: bool
    var playLabelReplay: bool
    var status: Story.Status
    // the narration element
    var position: real
    var paused: bool
    var ended: bool
    // resumes scheduled by correct answers and not yet fired
    var pendingResumes: nat
    // the option buttons: their answers, `data-state` attributes and audio elements
    const answers: seq<string>
    const states: array<OptionState>
    const clips: array<Clip>

    ghost function Snapshot(): Story.Session
      reads this, states, clips
    {
      Story.Session(stopIdx, activeCheckpoint, reListening, interactionLock,
                    playDisabled, relistenDisabled, playLabelReplay, status,
                    position, paused, ended, pendingResumes,
                    answers, states[..], clips[..])
    }

    ghost predicate Valid()
      reads this
    {
      0 <= stopIdx <= |Story.Stops| && -1 <= activeCheckpoint < |Story.Stops| &&
      states.Length == |answers| && clips.Length == |answers|
    }

    /** The script's setup (script.js:73-80, 100). */
    constructor (optionAnswers: seq<string>, playInitiallyDisabled: bool, relistenInitiallyDisabled: bool)
      ensures Valid() && fresh(states) && fresh(clips)
      ensures Snapshot() == Story.Init(optionAnswers, playInitiallyDisabled, relistenInitiallyDisabled)
    {
      stopIdx, activeCheckpoint, reListening, interactionLock := 0, -1, false, true;
      playDisabled, relistenDisabled, playLabelReplay, status := playInitiallyDisabled, relistenInitiallyDisabled, false, Story.Initial;
      position, paused, ended, pendingResumes := 0.0, true, false, 0;
      answers := optionAnswers;
      states := new OptionState[|optionAnswers|](_ => Locked);
      clips := new Clip[|optionAnswers|](_ => Rewound);
      new;
      assert states[..] == SetAll(seq(|answers|, _ => Neutral), Locked);
      assert clips[..] == seq(|answers|, _ => Rewound);
    }

    /** `setOptionsState` (script.js:82-84). */
    method SetOptionsState(st: OptionState)
      modifies states
      ensures states[..] == SetAll(old(states[..]), st)
    {
      var i := 0;
      while i < states.Length
        invariant 0 <= i <= states.Length
        invariant forall j :: 0 <= j < i ==> states[j] == st
      {
        states[i] := st;
        i := i + 1;
      }
      assert states[..] == SetAll(old(states[..]), st);
    }

    /** `lockChoices` (script.js:85). */
    method LockChoices()
      requires Valid()
      modifies this, states
      ensures Valid() && Snapshot() == Story.LockChoices(old(Snapshot()))
    {
      interactionLock := true;
      SetOptionsState(Locked);
    }

    /** `unlockChoices` (script.js:86). */
    method UnlockChoices()
      requires Valid()
      modifies this, states
      ensures Valid() && Snapshot() == Story.UnlockChoices(old(Snapshot()))
    {
      interactionLock := false;
      SetOptionsState(Neutral);
    }

    /** `stopAllOptionAudio` (script.js:88-92). */
    method StopAllOptionAudio()
      modifies clips
      ensures clips[..] == StopAll(old(clips[..]))
    {
      var i := 0;
      while i < clips.Length
        invariant 0 <= i <= clips.Length
        invariant forall j :: 0 <= j < i ==> clips[j] == Stop(old(clips[j]))
        invariant forall j :: i <= j < clips.Length ==> clips[j] == old(clips[j])
      {
        clips[i] := Stop(clips[i]);
        i := i + 1;
      }
      assert clips[..] == StopAll(old(clips[..]));
    }

    /** The `play` handler (script.js:129-134). */
    method OnPlay()
      requires Valid()
      modifies this, states, clips
      ensures Valid() && Snapshot() == Story.OnPlay(old(Snapshot()))
    {
      playDisabled := true;
      LockChoices();
      if !reListening {
        status := Story.ListenCarefully;
      }
      StopAllOptionAudio();
    }

    /** `mainAudio.play()`: an ended element seeks to its start; a paused narration starts, which fires `play`. */
    method MediaPlay()
      requires Valid()
      modifies this, states, clips
      ensures Valid() && Snapshot() == Story.MediaPlay(old(Snapshot()))
    {
      if ended {
        Seek(0.0);
      }
      if paused {
        paused := false;
        OnPlay();
      }
    }

    /** The `pause` handler (script.js:136-138). */
    method OnPause()
      modifies this
      ensures Snapshot() == Story.OnPause(old(Snapshot()))
    {
      if activeCheckpoint == -1 {
        playDisabled := false;
      }
    }

    /** `mainAudio.pause()`: pause a playing narration, which fires `pause`. */
    method MediaPause()
      requires Valid()
      modifies this
      ensures Valid() && Snapshot() == Story.MediaPause(old(Snapshot()))
    {
      if !paused {
        paused := true;
        OnPause();
      }
    }

    /** Setting `mainAudio.currentTime`. */
    method Seek(t: real)
      requires Valid()
      modifies this
      ensures Valid() && Snapshot() == Story.Seek(old(Snapshot()), t)
    {
      position, ended := t, false;
    }

    /** Click on play (script.js:103-114). */
    method PlayClick()
      requires Valid()
      modifies this, states, clips
      ensures Valid() && Snapshot() == Story.PlayClick(old(Snapshot()))
    {
      if activeCheckpoint != -1 {
        return;
      }
      if ended || stopIdx >= |Story.Stops| {
        RestartStory();
      }
      MediaPlay();
    }

    /** Back to the first checkpoint and the start of the narration (script.js:107-111). */
    method RestartStory()
      requires Valid()
      modifies this
      ensures Valid()
      ensures Snapshot() == Story.Seek(old(Snapshot()).(stopIdx := 0, activeCheckpoint := -1, reListening := false), 0.0)
                              .(status := Story.ReplayingFromStart)
    {
      stopIdx := 0;
      activeCheckpoint := -1;
      reListening := false;
      Seek(0.0);
      status := Story.ReplayingFromStart;
    }

    /** Click on re-listen (script.js:116-127). */
    method RelistenClick()
      requires Valid()
      modifies this, states, clips
      ensures Valid() && Snapshot() == Story.RelistenClick(old(Snapshot()))
    {
      if activeCheckpoint == -1 {
        return;
      }
      var segmentStart := if activeCheckpoint == 0 then 0.0 else Story.Stops[activeCheckpoint - 1];
      PrepareReplay();
      Seek(segmentStart);
      MediaPlay();
    }

    /** Enter re-listening with the choices and play locked (script.js:120-123). */
    method PrepareReplay()
      requires Valid()
      modifies this, states
      ensures Valid()
      ensures Snapshot() == Story.LockChoices(old(Snapshot()).(reListening := true))
                              .(playDisabled := true, status := Story.ReplayingSegment(old(activeCheckpoint)))
    {
      reListening := true;
      LockChoices();
      playDisabled := true;
      status := Story.ReplayingSegment(activeCheckpoint);
    }

    /** Pause exactly on checkpoint `k` and offer the choices (script.js:144-153, 160-167). */
    method PauseAt(k: int)
      requires Valid() && 0 <= k < |Story.Stops|
      modifies this, states
      ensures Valid() && Snapshot() == Story.PauseAt(old(Snapshot()), k)
    {
      MediaPause();
      Seek(Story.Stops[k]);
      OfferChoices(k);
    }

    /** Disable play, enable re-listen, unlock the choices and prompt for checkpoint `k`. */
    method OfferChoices(k: int)
      requires Valid()
      modifies this, states
      ensures Valid()
      ensures Snapshot() == Story.UnlockChoices(old(Snapshot()).(playDisabled := true, relistenDisabled := false))
                              .(status := Story.AtCheckpoint(k))
    {
      playDisabled := true;
      relistenDisabled := false;
      UnlockChoices();
      status := Story.AtCheckpoint(k);
    }

    /** The `timeupdate` handler (script.js:140-170), the clock having moved to `t`. */
    method OnTimeUpdate(t: real)
      requires Valid()
      modifies this, states
      ensures Valid() && Snapshot() == Story.OnTimeUpdate(old(Snapshot()), t)
    {
      position, ended := t, false;
      if !reListening && stopIdx < |Story.Stops| && position >= Story.Stops[stopIdx] - Story.Tolerance {
        ReachCheckpoint();
        return;
      }
      if reListening && activeCheckpoint != -1 {
        var target := Story.Stops[activeCheckpoint];
        if position >= target - Story.Tolerance {
          ReturnToCheckpoint();
        }
      }
    }

    /** A replayed segment reaches the active checkpoint again (script.js:159-168). */
    method ReturnToCheckpoint()
      requires Valid() && 0 <= activeCheckpoint
      modifies this, states
      ensures Valid()
      ensures Snapshot() == Story.ReturnToActive(old(Snapshot()))
    {
      PauseAt(activeCheckpoint);
      reListening := false;
    }

    /** The next checkpoint is reached (script.js:144-154). */
    method ReachCheckpoint()
      requires Valid() && stopIdx < |Story.Stops|
      modifies this, states
      ensures Valid()
      ensures Snapshot() == Story.ReachNext(old(Snapshot()))
    {
      var k := stopIdx;
      PauseAt(k);
      activeCheckpoint := k;
      stopIdx := k + 1;
    }

    /**
     * The narration reached its end (script.js:172-180), as the script is written. A playing
     * narration first pauses and fires `pause`.
     */
    method OnEnded()
      requires Valid()
      modifies this, states
      ensures Valid() && Snapshot() == Story.OnEndedAsWritten(old(Snapshot()))
    {
      ended := true;
      if !paused {
        paused := true;
        OnPause();
      }
      Finish();
    }

    /** The `ended` handler proper (script.js:173-179). */
    method Finish()
      requires Valid()
      modifies this, states
      ensures Valid()
      ensures Snapshot() == old(Snapshot()).(activeCheckpoint := -1, reListening := false, relistenDisabled := true,
                                              status := Story.Finished, states := SetAll(old(states[..]), Locked),
                                              playLabelReplay := true, playDisabled := false)
    {
      activeCheckpoint := -1;
      reListening := false;
      relistenDisabled := true;
      status := Story.Finished;
      SetOptionsState(Locked);
      playLabelReplay := true;
      playDisabled := false;
    }

    /** Click on option `i` (script.js:183-209). */
    method OptionClick(i: nat)
      requires Valid() && i < |answers|
      modifies this, states
      ensures Valid() && Snapshot() == Story.OptionClick(old(Snapshot()), i)
    {
      if interactionLock {
        return;
      }
      var userPick := answers[i];
      var neededAnswer := NeededAnswer();
      if userPick == neededAnswer {
        AcceptAnswer(i);
      } else {
        RejectAnswer(i);
      }
    }

    /** The answer the current click is checked against (script.js:188-190). */
    method NeededAnswer() returns (a: string)
      requires Valid()
      ensures a == Story.NeededAnswer(Snapshot())
    {
      a := if activeCheckpoint >= 0 then Story.CorrectAnswers[activeCheckpoint]
           else Story.CorrectAnswers[if stopIdx - 1 > 0 then stopIdx - 1 else 0];
    }

    /** A wrong pick marks only that option (script.js:205-206). */
    method RejectAnswer(i: nat)
      requires Valid() && i < |answers|
      modifies this, states
      ensures Valid()
      ensures Snapshot() == old(Snapshot()).(states := old(states[..])[i := Wrong], status := Story.TryAnother)
    {
      states[i] := Wrong;
      status := Story.TryAnother;
    }

    /** A correct pick: release the checkpoint, lock the choices, schedule the resume (script.js:193-203). */
    method AcceptAnswer(i: nat)
      requires Valid() && i < |answers|
      modifies this, states
      ensures Valid()
      ensures Snapshot() == old(Snapshot()).(states := SetAll(old(states[..]), Locked), status := Story.CorrectResuming,
                                              activeCheckpoint := -1, relistenDisabled := true,
                                              pendingResumes := old(pendingResumes) + 1, interactionLock := true)
    {
      states[i] := Correct;
      status := Story.CorrectResuming;
      activeCheckpoint := -1;
      relistenDisabled := true;
      LockChoices();
      pendingResumes := pendingResumes + 1;
    }

    /** The 400 ms timer of a correct answer fires (script.js:200-203). */
    method FireResume()
      requires Valid() && pendingResumes > 0
      modifies this, states, clips
      ensures Valid() && Snapshot() == Story.FireResumeAsWritten(old(Snapshot()))
    {
      pendingResumes := pendingResumes - 1;
      playDisabled := false;
      MediaPlay();
    }
  }
}
