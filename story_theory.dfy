/** What the checkpoint player guarantees over any sequence of events. */
module StoryTheory {
  import opened Media
  import opened Story

  /** The checkpoints are strictly increasing and further apart than the tolerance (script.js:72, 143). */
  lemma StopsIncreasing(i: int, j: int)
    requires 0 <= i < j < |Stops|
    ensures Stops[i] + Tolerance < Stops[j]
    ensures |Stops| == |CorrectAnswers|
  {
  }

  /** Every delivered event keeps the invariant. */
  lemma StepPreservesInv(s: Session, e: Event)
    requires Inv(s)
    ensures Inv(Step(s, e))
  {
    match e
    case PlayClicked =>
    case RelistenClicked =>
    case OptionClicked(i) =>
    case TimeUpdated(t) =>
    case PausedExternally =>
    case NarrationEnded =>
    case ResumeTimerFired =>
  }

  /** The invariant holds after any sequence of events. */
  lemma {:induction false} RunPreservesInv(s: Session, es: seq<Event>)
    requires Inv(s)
    ensures Inv(Run(s, es))
    decreases |es|
  {
    if es != [] {
      StepPreservesInv(s, es[0]);
      RunPreservesInv(Step(s, es[0]), es[1..]);
    }
  }

  /** No skipping: while a checkpoint awaits its answer, a click on play changes nothing. */
  lemma NoSkip(s: Session)
    requires Wf(s) && s.activeCheckpoint != -1
    ensures Step(s, PlayClicked) == s
  {
  }

  /**
   * No skipping, for every event but a time update: while a checkpoint awaits its answer outside a
   * replay, one event leaves the next-checkpoint index alone and the narration plays only as a
   * replay; the checkpoint stays active unless it was answered correctly or the narration ended.
   */
  lemma NoSkipWhileAwaiting(s: Session, e: Event)
    requires Inv(s) && s.activeCheckpoint != -1 && !s.reListening && !e.TimeUpdated?
    ensures var r := Step(s, e);
      r.stopIdx == s.stopIdx && (r.paused || r.reListening) &&
      (r.activeCheckpoint == s.activeCheckpoint ||
       (r.activeCheckpoint == -1 &&
        (e == NarrationEnded ||
         (e.OptionClicked? && e.index < |s.answers| && s.answers[e.index] == CorrectAnswers[s.activeCheckpoint]))))
  {
    match e
    case PlayClicked =>
    case RelistenClicked =>
    case OptionClicked(i) =>
    case PausedExternally =>
    case NarrationEnded =>
    case ResumeTimerFired =>
  }

  /**
   * The resume timer as written lets the story run past a checkpoint nobody answered: play, reach
   * 18 s, pick "Ice-Cream" (right), and within the 400 ms move the clock to 26.96 s, which reaches
   * the second checkpoint. The timer then plays the narration there, and the next time update
   * reaches the third checkpoint. The corrected timer leaves the second checkpoint awaiting its answer.
   */
  lemma ResumeTimerSkipsCheckpoint()
    ensures var s0 := Init(CorrectAnswers, false, true);
      var s4 := Run(s0, [PlayClicked, TimeUpdated(17.96), OptionClicked(0), TimeUpdated(26.96)]);
      var w := FireResumeAsWritten(s4);
      var w1 := Step(w, TimeUpdated(34.96));
      var c := Step(s4, ResumeTimerFired);
      Inv(s4) && s4.paused && s4.activeCheckpoint == 1 && !s4.interactionLock && s4.pendingResumes == 1 &&
      !Inv(w) && !w.paused && w.activeCheckpoint == 1 &&
      w1.activeCheckpoint == 2 && w1.stopIdx == 3 &&
      Inv(c) && c.paused && c.activeCheckpoint == 1 && !c.interactionLock && c.pendingResumes == 0
  {
    var s0 := Init(CorrectAnswers, false, true);
    var s1 := Step(s0, PlayClicked);
    var s2 := Step(s1, TimeUpdated(17.96));
    assert s2.activeCheckpoint == 0 && !s2.interactionLock;
    assert NeededAnswer(s2) == "Ice-Cream";
    var s3 := Step(s2, OptionClicked(0));
    assert s3.activeCheckpoint == -1 && s3.pendingResumes == 1 && s3.paused;
    var s4 := Step(s3, TimeUpdated(26.96));
    assert s4.activeCheckpoint == 1 && s4.stopIdx == 2;
    assert Run(s0, [PlayClicked, TimeUpdated(17.96), OptionClicked(0), TimeUpdated(26.96)]) == s4;
  }

  /**
   * A seek away from the end clears `ended`: after the narration ended past the first checkpoint,
   * moving its clock back to 20 s and clicking play plays on from there, with no restart.
   */
  lemma SeekAfterEndPlaysOn()
    ensures var s := Run(Init(CorrectAnswers, false, true),
                         [PlayClicked, TimeUpdated(17.96), OptionClicked(0), ResumeTimerFired, NarrationEnded, TimeUpdated(20.0)]);
      var r := Step(s, PlayClicked);
      !s.ended && s.stopIdx == 1 && !s.playDisabled &&
      !r.paused && r.stopIdx == 1 && r.position == 20.0 && r.activeCheckpoint == -1
  {
    var s0 := Init(CorrectAnswers, false, true);
    var s2 := Step(Step(s0, PlayClicked), TimeUpdated(17.96));
    assert NeededAnswer(s2) == "Ice-Cream";
    var s3 := Step(s2, OptionClicked(0));
    var s4 := Step(s3, ResumeTimerFired);
    assert !s4.paused && s4.stopIdx == 1;
    var s6 := Step(Step(s4, NarrationEnded), TimeUpdated(20.0));
    assert !s6.ended && s6.stopIdx == 1;
    assert Run(s0, [PlayClicked, TimeUpdated(17.96), OptionClicked(0), ResumeTimerFired, NarrationEnded, TimeUpdated(20.0)]) == s6;
  }

  /** On a paused narration, the corrected timer differs from the written one exactly when a checkpoint is active. */
  lemma ResumeFixAgreesIffNoCheckpoint(s: Session)
    requires Wf(s) && s.pendingResumes > 0 && s.paused
    ensures FireResume(s) == FireResumeAsWritten(s) <==> s.activeCheckpoint == -1
  {
  }

  /**
   * Whenever an option click is accepted, a checkpoint is active, so the answer checked is that
   * checkpoint's and the fallback to the previous checkpoint's answer is never taken.
   */
  lemma FallbackUnreachable(s: Session)
    requires Inv(s) && !s.interactionLock
    ensures 0 <= s.activeCheckpoint < |Stops| && s.activeCheckpoint == s.stopIdx - 1
    ensures NeededAnswer(s) == CorrectAnswers[s.activeCheckpoint]
  {
  }

  /**
   * The `ended` handler as written leaves the choices accepting answers when the narration ends
   * while a checkpoint awaits its answer: play, reach 18 s, then the narration element reaches its
   * end while paused there. No checkpoint is active any more, yet a click on "Ice-Cream" is accepted
   * through the fallback answer and schedules a resume.
   */
  lemma EndedWhileAwaitingAcceptsAnswers()
    ensures var s := Step(Step(Init(CorrectAnswers, false, true), PlayClicked), TimeUpdated(17.96));
      var r := OnEndedAsWritten(s);
      var c := OptionClick(r, 0);
      Inv(s) && s.paused && !s.interactionLock && s.activeCheckpoint == 0 &&
      !Inv(r) && !r.interactionLock && r.activeCheckpoint == -1 && r.status == Finished &&
      NeededAnswer(r) == CorrectAnswers[r.stopIdx - 1] &&
      c.status == CorrectResuming && c.pendingResumes == 1
  {
    var s := Step(Step(Init(CorrectAnswers, false, true), PlayClicked), TimeUpdated(17.96));
    assert s.activeCheckpoint == 0 && s.stopIdx == 1 && !s.interactionLock;
    var r := OnEndedAsWritten(s);
    assert NeededAnswer(r) == "Ice-Cream";
  }

  /** The corrected `ended` handler differs from the written one exactly when the choices were unlocked. */
  lemma EndedFixAgreesIffLocked(s: Session)
    requires Wf(s)
    ensures OnEndedAsWritten(s) == OnEnded(s) <==> s.interactionLock
  {
    if s.interactionLock {
      assert OnEndedAsWritten(s).states == OnEnded(s).states;
    } else {
      assert OnEndedAsWritten(s).interactionLock != OnEnded(s).interactionLock;
    }
  }

  /** Under the invariant a playing narration has its choices locked, so its end runs the same either way. */
  lemma EndedWhilePlayingAsWritten(s: Session)
    requires Inv(s) && !s.paused
    ensures OnEndedAsWritten(s) == OnEnded(s)
  {
    EndedFixAgreesIffLocked(s);
  }

  /**
   * One event moves the next-checkpoint index by at most one: it stays, it advances because the
   * clock reached that very checkpoint, or play restarts the story after the end.
   */
  lemma StepIndex(s: Session, e: Event)
    requires Wf(s)
    ensures var r := Step(s, e);
      r.stopIdx == s.stopIdx ||
      (r.stopIdx == s.stopIdx + 1 && e.TimeUpdated? && e.time >= Stops[s.stopIdx] - Tolerance &&
       r.activeCheckpoint == s.stopIdx && r.position == Stops[s.stopIdx]) ||
      (r.stopIdx == 0 && e == PlayClicked && (s.ended || s.stopIdx == |Stops|))
  {
    match e
    case PlayClicked =>
    case RelistenClicked =>
    case OptionClicked(i) =>
    case TimeUpdated(t) =>
    case PausedExternally =>
    case NarrationEnded =>
    case ResumeTimerFired =>
  }

  /** The checkpoints reached during a run, in the order they are reached. */
  function Reached(s: Session, es: seq<Event>): seq<int>
    requires Wf(s)
    decreases |es|
  {
    if es == [] then []
    else
      var r := Step(s, es[0]);
      (if r.stopIdx == s.stopIdx + 1 then [s.stopIdx] else []) + Reached(r, es[1..])
  }

  /** No event of the run restarts the story. */
  predicate NoRestart(s: Session, es: seq<Event>)
    requires Wf(s)
    decreases |es|
  {
    es == [] || (Step(s, es[0]).stopIdx >= s.stopIdx && NoRestart(Step(s, es[0]), es[1..]))
  }

  function Range(lo: int, hi: int): (r: seq<int>)
    requires lo <= hi
    ensures |r| == hi - lo && forall j :: 0 <= j < |r| ==> r[j] == lo + j
  {
    seq(hi - lo, j => lo + j)
  }

  /**
   * Between restarts, checkpoints are reached one after the other with none skipped:
   * exactly the indices from the first index to the final one.
   */
  lemma {:induction false} ReachedIsRange(s: Session, es: seq<Event>)
    requires Wf(s) && NoRestart(s, es)
    ensures s.stopIdx <= Run(s, es).stopIdx <= |Stops|
    ensures Reached(s, es) == Range(s.stopIdx, Run(s, es).stopIdx)
    decreases |es|
  {
    if es != [] {
      var r := Step(s, es[0]);
      StepIndex(s, es[0]);
      ReachedIsRange(r, es[1..]);
      RangeCons(s.stopIdx, r.stopIdx, Run(r, es[1..]).stopIdx,
                if r.stopIdx == s.stopIdx + 1 then [s.stopIdx] else [], Reached(r, es[1..]));
    }
  }

  lemma RangeCons(lo: int, mid: int, hi: int, head: seq<int>, rest: seq<int>)
    requires (mid == lo && head == []) || (mid == lo + 1 && head == [lo])
    requires mid <= hi && rest == Range(mid, hi)
    ensures head + rest == Range(lo, hi)
  {
  }

  /** Between restarts, the checkpoints are reached at strictly increasing times. */
  lemma ReachedInOrder(s: Session, es: seq<Event>)
    requires Wf(s) && NoRestart(s, es)
    ensures forall j, k :: 0 <= j < k < |Reached(s, es)| ==>
              0 <= Reached(s, es)[j] < Reached(s, es)[k] < |Stops| && Stops[Reached(s, es)[j]] < Stops[Reached(s, es)[k]]
  {
    ReachedIsRange(s, es);
    var rs := Reached(s, es);
    forall j, k | 0 <= j < k < |rs| ensures Stops[rs[j]] < Stops[rs[k]] {
      StopsIncreasing(rs[j], rs[k]);
    }
  }

  /** Running `a` then `b` is running `a + b`. */
  lemma {:induction false} RunAppend(s: Session, a: seq<Event>, b: seq<Event>)
    requires Wf(s)
    ensures Run(s, a + b) == Run(Run(s, a), b)
    decreases |a|
  {
    if a != [] {
      assert (a + b)[0] == a[0] && (a + b)[1..] == a[1..] + b;
      RunAppend(Step(s, a[0]), a[1..], b);
    } else {
      assert a + b == b;
    }
  }

  function Ticks(ts: seq<real>): (es: seq<Event>)
    ensures |es| == |ts| && forall j :: 0 <= j < |ts| ==> es[j] == TimeUpdated(ts[j])
  {
    seq(|ts|, j requires 0 <= j < |ts| => TimeUpdated(ts[j]))
  }

  /** While a segment is replayed, time updates short of the active checkpoint only move the clock. */
  lemma {:induction false} ReplayTicks(s: Session, ts: seq<real>)
    requires Wf(s) && s.reListening && 0 <= s.activeCheckpoint
    requires forall j :: 0 <= j < |ts| ==> ts[j] < Stops[s.activeCheckpoint] - Tolerance
    ensures Run(s, Ticks(ts)).(position := s.position, ended := s.ended) == s
    decreases |ts|
  {
    if ts != [] {
      var r := Step(s, TimeUpdated(ts[0]));
      assert r == s.(position := ts[0], ended := false);
      assert Ticks(ts)[1..] == Ticks(ts[1..]);
      ReplayTicks(r, ts[1..]);
    }
  }

  /**
   * Re-listening never advances or resets the question: from a checkpoint awaiting its answer,
   * re-listen, any time updates before the checkpoint, then one that reaches it, bring the player
   * back to the same checkpoint, paused exactly on it, with the choices unlocked again.
   */
  lemma ReplayReturnsToSameCheckpoint(s: Session, ts: seq<real>, t: real)
    requires Inv(s) && !s.interactionLock
    requires forall j :: 0 <= j < |ts| ==> ts[j] < Stops[s.activeCheckpoint] - Tolerance
    requires t >= Stops[s.activeCheckpoint] - Tolerance
    ensures var r := Run(s, [RelistenClicked] + Ticks(ts) + [TimeUpdated(t)]);
      r.activeCheckpoint == s.activeCheckpoint && r.stopIdx == s.stopIdx &&
      !r.reListening && !r.interactionLock && r.paused && r.position == Stops[s.activeCheckpoint]
  {
    var k := s.activeCheckpoint;
    var s1 := Step(s, RelistenClicked);
    assert s1 == RelistenClick(s);
    assert Run(s, [RelistenClicked]) == s1;
    ReplayTicks(s1, ts);
    var s2 := Run(s1, Ticks(ts));
    RunAppend(s, [RelistenClicked], Ticks(ts));
    RunAppend(s, [RelistenClicked] + Ticks(ts), [TimeUpdated(t)]);
    assert s2.reListening && s2.activeCheckpoint == k && s2.stopIdx == s.stopIdx;
    assert Run(s2, [TimeUpdated(t)]) == Step(s2, TimeUpdated(t));
  }

  /**
   * The first checkpoint of the story, answered wrongly and then correctly: play, reach 18 s,
   * pick "Carrots" (wrong), pick "Ice-Cream" (right), then the resume timer fires.
   */
  lemma FirstCheckpointScenario()
    ensures var s0 := Init(CorrectAnswers, false, true);
      var s1 := Step(s0, PlayClicked);
      var s2 := Step(s1, TimeUpdated(17.96));
      var s3 := Step(s2, OptionClicked(1));
      var s4 := Step(s3, OptionClicked(0));
      var s5 := Step(s4, ResumeTimerFired);
      !s1.paused && s1.activeCheckpoint == -1 &&
      s2.paused && s2.position == 18.0 && s2.activeCheckpoint == 0 && !s2.interactionLock &&
      s3.activeCheckpoint == 0 && s3.states[1] == Wrong && !s3.interactionLock &&
      s4.activeCheckpoint == -1 && s4.interactionLock && s4.pendingResumes == 1 &&
      !s5.paused && s5.activeCheckpoint == -1 && s5.stopIdx == 1 && s5.pendingResumes == 0
  {
    var s0 := Init(CorrectAnswers, false, true);
    var s1 := Step(s0, PlayClicked);
    var s2 := Step(s1, TimeUpdated(17.96));
    assert s2.activeCheckpoint == 0 && !s2.interactionLock;
    var s3 := Step(s2, OptionClicked(1));
    assert NeededAnswer(s2) == "Ice-Cream";
    assert s3 == s2.(states := s2.states[1 := Wrong], status := TryAnother);
    var s4 := Step(s3, OptionClicked(0));
  }
}
