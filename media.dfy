/** Audio clips and option display states, shared by the listening gate and the story player. */
module Media {

  /** One option's audio element: its playback position in seconds and whether it is paused. */
  datatype Clip = Clip(position: real, paused: bool)

  /** The `data-state` attribute of an option button; `Neutral` stands for the attribute being absent. */
  datatype OptionState = Neutral | Heard | Locked | Correct | Wrong

  /** A clip that is paused and rewound to its start. */
  const Rewound: Clip := Clip(0.0, true)

  /** Pause the clip if it is playing, then rewind it to position 0. */
  function Stop(c: Clip): (r: Clip)
    ensures r.paused && r.position == 0.0
  {
    c.(paused := true).(position := 0.0)
  }

  predicate AllStopped(clips: seq<Clip>)
  {
    forall j :: 0 <= j < |clips| ==> clips[j] == Rewound
  }

  /** No two clips of `clips` are playing at the same time. */
  predicate AtMostOnePlaying(clips: seq<Clip>)
  {
    forall j, k :: 0 <= j < |clips| && 0 <= k < |clips| && !clips[j].paused && !clips[k].paused ==> j == k
  }

  /** Stop every clip of a group (the `forEach` over the option audio elements). */
  function StopAll(clips: seq<Clip>): (r: seq<Clip>)
    ensures |r| == |clips| && AllStopped(r) && AtMostOnePlaying(r)
  {
    seq(|clips|, j requires 0 <= j < |clips| => Stop(clips[j]))
  }

  predicate AllIn(states: seq<OptionState>, st: OptionState)
  {
    forall j :: 0 <= j < |states| ==> states[j] == st
  }

  /** Write the same display state on every option button (the `forEach` of `setOptionsState`). */
  function SetAll(states: seq<OptionState>, st: OptionState): (r: seq<OptionState>)
    ensures |r| == |states| && AllIn(r, st)
  {
    seq(|states|, _ => st)
  }
}
