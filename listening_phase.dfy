/**
 * The listening gate of script.js as the script runs it: the heard set and the buttons' states are
 * updated in place by the clips' and buttons' handlers. Each handler is proved to move the page
 * exactly as the corresponding `ListeningGate` function.
 */
module ListeningPhase {
  import opened Media
  import G = ListeningGate

  class ListeningPage {
    var heardSounds: set<string>
    var nextEnabled: bool
    var guessing: bool
    var status: G.GateStatus
    // the listen buttons: their answers, `data-state` attributes and audio elements
    const answers: seq<string>
    const states: array<OptionState>
    const clips: array<Clip>

    ghost function Snapshot(): G.Gate
      reads this, states, clips
    {
      G.Gate(answers, heardSounds, states[..], clips[..], nextEnabled, guessing, status)
    }

    ghost predicate Valid()
      reads this
    {
      states.Length == |answers| && clips.Length == |answers|
    }

    /** The page as loaded (script.js:16-22). */
    constructor (listenAnswers: seq<string>)
      ensures Valid() && fresh(states) && fresh(clips)
      ensures Snapshot() == G.Init(listenAnswers)
    {
      heardSounds, nextEnabled, guessing, status := {}, false, false, G.Prompt;
      answers := listenAnswers;
      states := new OptionState[|listenAnswers|](_ => Neutral);
      clips := new Clip[|listenAnswers|](_ => Rewound);
      new;
      assert states[..] == seq(|answers|, _ => Neutral);
      assert clips[..] == seq(|answers|, _ => Rewound);
    }

    /** `stopAllListeningAudio` (script.js:24-28). */
    method StopAllListeningAudio()
      modifies clips
      ensures clips[..] == StopAll(old(clips[..]))
    {
      var i := 0;
      while i < clips.Length
        invariant 0 <= i <= clips.Length
        invariant forall j :: 0 <= j < i ==> clips[j] == Stop(old(clips[j]))
        invariant forall j :: i <= j < clips.Length ==> clips[j] == old(clips[j])
      {
        clips[i] := Stop(clips[i]);
        i := i + 1;
      }
      assert clips[..] == StopAll(old(clips[..]));
    }

    /** The `ended` handler of listen clip `i` (script.js:33-47); the element is paused once it has ended. */
    method ClipEnded(i: nat)
      requires Valid() && i < |answers|
      modifies this, states, clips
      ensures Valid() && Snapshot() == G.ClipEnded(old(Snapshot()), i)
    {
      clips[i] := clips[i].(paused := true);
      var answer := answers[i];
      if answer !in heardSounds {
        heardSounds := heardSounds + {answer};
        states[i] := Heard;
        var remaining := |answers| - |heardSounds|;
        if remaining > 0 {
          status := G.Progress(|heardSounds|, remaining);
        } else {
          status := G.AllHeard;
          nextEnabled := true;
        }
      }
    }

    /** The `click` handler of listen button `i` (script.js:49-53). */
    method ListenClick(i: nat)
      requires Valid() && i < |answers|
      modifies clips
      ensures Valid() && Snapshot() == G.Audition(old(Snapshot()), i)
    {
      StopAllListeningAudio();
      clips[i] := clips[i].(position := 0.0);
      clips[i] := clips[i].(paused := false);
    }

    /** The `click` handler of Next (script.js:56-59). */
    method NextClick()
      modifies this
      ensures Snapshot() == G.NextClick(old(Snapshot()))
    {
      guessing := true;
    }
  }
}
