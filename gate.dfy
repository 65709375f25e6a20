/**
 * The listening gate of script.js (lines 15-59): every sound must be heard to its end once before
 * Next is enabled. A `Gate` holds the heard answers, the listen buttons and their clips, and Next.
 */
module ListeningGate {
  import opened Media

  /** The listening status line, as a tag in place of its text. */
  datatype GateStatus = Prompt | Progress(heard: nat, remaining: int) | AllHeard

  datatype Gate = Gate(
    answers: seq<string>,       // `data-answer` of each listen button, in page order
    heard: set<string>,         // `heardSounds`
    states: seq<OptionState>,   // `data-state` of each listen button
    clips: seq<Clip>,           // the audio element of each listen button
    nextEnabled: bool,
    guessing: bool,             // the guessing phase is shown in place of the listening phase
    status: GateStatus)

  function AnswerSet(answers: seq<string>): set<string>
  {
    set a | a in answers
  }

  predicate Distinct(answers: seq<string>)
  {
    forall j, k :: 0 <= j < k < |answers| ==> answers[j] != answers[k]
  }

  predicate Wf(g: Gate)
  {
    |g.states| == |g.answers| && |g.clips| == |g.answers|
  }

  /**
   * Only answers of listen buttons are heard, Next is enabled exactly when as many answers were
   * heard as there are buttons, and the guessing phase is shown only through an enabled Next.
   */
  predicate Inv(g: Gate)
  {
    Wf(g) && g.heard <= AnswerSet(g.answers) &&
    (g.nextEnabled <==> g.heard != {} && |g.heard| == |g.answers|) &&
    (g.guessing ==> g.nextEnabled)
  }

  /** The page as loaded: nothing heard, no marks, every clip at rest, Next disabled, listening phase shown. */
  function Init(answers: seq<string>): (g: Gate)
    ensures Inv(g) && g.answers == answers && g.heard == {} && !g.nextEnabled && !g.guessing
  {
    Gate(answers, {}, seq(|answers|, _ => Neutral), seq(|answers|, _ => Rewound), false, false, Prompt)
  }

  /** A list has at most as many different answers as entries, and exactly as many when no answer repeats. */
  lemma {:induction false} AnswerSetSize(answers: seq<string>)
    ensures |AnswerSet(answers)| <= |answers|
    ensures |AnswerSet(answers)| == |answers| <==> Distinct(answers)
    decreases |answers|
  {
    if answers != [] {
      var rest := answers[1..];
      AnswerSetSize(rest);
      assert AnswerSet(answers) == {answers[0]} + AnswerSet(rest);
      if answers[0] in AnswerSet(rest) {
        assert !Distinct(answers) by {
          var k :| 0 <= k < |rest| && rest[k] == answers[0];
          assert answers[k + 1] == answers[0];
        }
      } else {
        assert Distinct(answers) <==> Distinct(rest) by {
          if Distinct(rest) {
            forall j, k | 0 <= j < k < |answers| ensures answers[j] != answers[k] {
              if j > 0 { assert rest[j - 1] == answers[j] && rest[k - 1] == answers[k]; }
              else { assert answers[k] in AnswerSet(rest); }
            }
          }
          if Distinct(answers) {
            forall j, k | 0 <= j < k < |rest| ensures rest[j] != rest[k] {
              assert answers[j + 1] != answers[k + 1];
            }
          }
        }
      }
    } else {
      assert AnswerSet(answers) == {};
    }
  }

  /** A subset is no larger than its superset, and as large only when it is the superset. */
  lemma SubsetSize<T>(a: set<T>, b: set<T>)
    requires a <= b
    ensures |a| <= |b|
    ensures |a| == |b| ==> a == b
  {
    var d := b - a;
    assert a * d == {};
    assert b == a + d;
    if |d| == 0 {
      assert d == {};
    }
  }

  /**
   * The listen clip `i` played to its end (script.js:33-47). Its answer joins the heard set; the
   * first time, the button is marked heard and the status counts down, and when no answer remains
   * Next is enabled.
   */
  function ClipEnded(g: Gate, i: nat): (r: Gate)
    requires Wf(g) && i < |g.answers|
    ensures Wf(r) && r.answers == g.answers
    ensures Inv(g) ==> Inv(r)
    ensures r.heard == g.heard + {g.answers[i]}
    ensures r.clips == g.clips[i := g.clips[i].(paused := true)]
    ensures g.answers[i] in g.heard ==> r.(clips := g.clips) == g
    ensures g.answers[i] !in g.heard ==> r.states == g.states[i := Heard] && r.guessing == g.guessing
    ensures Inv(g) && g.answers[i] !in g.heard ==>
              (r.nextEnabled <==> r.status == AllHeard) &&
              (!r.nextEnabled ==> r.status == Progress(|r.heard|, |g.answers| - |r.heard|))
  {
    var g := g.(clips := g.clips[i := g.clips[i].(paused := true)]);
    var answer := g.answers[i];
    if answer in g.heard then g
    else
      var heard := g.heard + {answer};
      var remaining := |g.answers| - |heard|;
      var marked := g.(heard := heard, states := g.states[i := Heard]);
      if remaining > 0 then marked.(status := Progress(|heard|, remaining))
      else
        assert Inv(g) ==> |heard| <= |g.answers| by {
          if Inv(g) {
            assert answer in AnswerSet(g.answers);
            SubsetSize(heard, AnswerSet(g.answers));
            AnswerSetSize(g.answers);
          }
        }
        marked.(status := AllHeard, nextEnabled := true)
  }

  /**
   * Click on listen button `i` (script.js:24-28, 49-53): every listen clip is paused and rewound,
   * then clip `i` plays from its start. Nothing is heard by this.
   */
  function Audition(g: Gate, i: nat): (r: Gate)
    requires Wf(g) && i < |g.answers|
    ensures Wf(r)
    ensures Inv(g) ==> Inv(r)
    ensures r.(clips := g.clips) == g
    ensures r.clips[i] == Clip(0.0, false)
    ensures forall j :: 0 <= j < |r.clips| && j != i ==> r.clips[j] == Rewound
    ensures AtMostOnePlaying(r.clips)
  {
    var stopped := StopAll(g.clips);
    g.(clips := stopped[i := stopped[i].(position := 0.0, paused := false)])
  }

  /** Click on Next (script.js:56-59): the listening phase is hidden and the guessing phase shown. */
  function NextClick(g: Gate): (r: Gate)
    ensures r.guessing && r.(guessing := g.guessing) == g
    ensures Inv(g) && g.nextEnabled ==> Inv(r)
  {
    g.(guessing := true)
  }

  datatype GateEvent = ClipFinished(index: nat) | ListenClicked(index: nat) | NextClicked

  /** A click on a listen button that exists. */
  predicate IsClick(n: nat, e: GateEvent)
  {
    e.ListenClicked? && e.index < n
  }

  /**
   * Whether the page delivers `e`: events of buttons that do not exist have no listener, a clip
   * fires `ended` only while it plays, and a disabled Next gets no click.
   */
  predicate Delivered(g: Gate, e: GateEvent)
    requires Wf(g)
  {
    match e
    case ClipFinished(i) => i < |g.answers| && !g.clips[i].paused
    case ListenClicked(i) => i < |g.answers|
    case NextClicked => g.nextEnabled
  }

  /** Deliver one event; an event the page does not deliver changes nothing. */
  function Step(g: Gate, e: GateEvent): (r: Gate)
    requires Wf(g)
    ensures Wf(r) && r.answers == g.answers
    ensures !Delivered(g, e) ==> r == g
  {
    if !Delivered(g, e) then g
    else
      match e
      case ClipFinished(i) => ClipEnded(g, i)
      case ListenClicked(i) => Audition(g, i)
      case NextClicked => NextClick(g)
  }

  function Run(g: Gate, es: seq<GateEvent>): (r: Gate)
    requires Wf(g)
    ensures Wf(r) && r.answers == g.answers
    decreases |es|
  {
    if es == [] then g else Run(Step(g, es[0]), es[1..])
  }

  /** Running a nonempty prefix of `es` is one step followed by the rest of that prefix. */
  lemma RunPrefix(g: Gate, es: seq<GateEvent>, m: nat)
    requires Wf(g) && 1 <= m <= |es|
    ensures Run(g, es[..m]) == Run(Step(g, es[0]), es[1..][..m - 1])
  {
    assert es[..m][0] == es[0] && es[..m][1..] == es[1..][..m - 1];
  }

  /** Event `e` is the end of a clip that was playing in state `g`. */
  predicate PlayedToEnd(g: Gate, e: GateEvent)
    requires Wf(g)
  {
    e.ClipFinished? && Delivered(g, e)
  }

  /** At position `m` of `es`, run from `g`, a clip carrying answer `x` ended while playing. */
  predicate EndedAt(g: Gate, es: seq<GateEvent>, m: int, x: string)
    requires Wf(g)
  {
    0 <= m < |es| && PlayedToEnd(Run(g, es[..m]), es[m]) && g.answers[es[m].index] == x
  }

  /** Past the first event, positions of `es` are positions of its tail run from the next state. */
  lemma EndedAtShift(g: Gate, es: seq<GateEvent>, m: int, x: string)
    requires Wf(g) && 1 <= m < |es|
    ensures EndedAt(g, es, m, x) <==> EndedAt(Step(g, es[0]), es[1..], m - 1, x)
  {
    RunPrefix(g, es, m);
    assert es[1..][m - 1] == es[m];
  }

  /** One event adds to the heard set the answer of a clip that ended while playing, and nothing else. */
  lemma StepHeard(g: Gate, e: GateEvent)
    requires Wf(g)
    ensures Step(g, e).heard == g.heard + (if PlayedToEnd(g, e) then {g.answers[e.index]} else {})
  {
  }

  /**
   * The heard set grows only through clips playing to their end: after `es`, an answer is heard
   * iff it was heard before or, at some point of `es`, a clip carrying it ended while playing.
   */
  lemma {:induction false} HeardIffPlayedToEnd(g: Gate, es: seq<GateEvent>, x: string)
    requires Wf(g)
    ensures x in Run(g, es).heard <==> x in g.heard || exists m :: EndedAt(g, es, m, x)
    decreases |es|
  {
    if es != [] {
      var h := Step(g, es[0]);
      var t := es[1..];
      HeardIffPlayedToEnd(h, t, x);
      StepHeard(g, es[0]);
      assert EndedAt(g, es, 0, x) <==> PlayedToEnd(g, es[0]) && g.answers[es[0].index] == x by {
        assert es[..0] == [];
      }
      if x in Run(g, es).heard && x !in g.heard && x !in h.heard {
        var m :| EndedAt(h, t, m, x);
        EndedAtShift(g, es, m + 1, x);
      }
      if exists m :: EndedAt(g, es, m, x) {
        var m :| EndedAt(g, es, m, x);
        if m > 0 {
          EndedAtShift(g, es, m, x);
        }
      }
    }
  }

  /** The invariant holds after any events. */
  lemma {:induction false} RunPreservesInv(g: Gate, es: seq<GateEvent>)
    requires Inv(g)
    ensures Inv(Run(g, es))
    decreases |es|
  {
    if es != [] {
      RunPreservesInv(Step(g, es[0]), es[1..]);
    }
  }

  /**
   * Next is enabled exactly when there is at least one listen button, their answers are distinct
   * and every one of them was heard. With a repeated answer it is never enabled.
   */
  lemma NextEnabledIffAllHeard(g: Gate)
    requires Inv(g)
    ensures g.nextEnabled <==> |g.answers| > 0 && Distinct(g.answers) && g.heard == AnswerSet(g.answers)
  {
    AnswerSetSize(g.answers);
    SubsetSize(g.heard, AnswerSet(g.answers));
    if |g.answers| > 0 && Distinct(g.answers) && g.heard == AnswerSet(g.answers) {
      assert g.answers[0] in g.heard;
    }
  }

  /**
   * The guessing phase can only be reached after every listen button's sound was heard: from the
   * page as loaded, whenever the guessing phase is shown, the answers are distinct and all heard.
   */
  lemma GuessingOnlyAfterAllHeard(answers: seq<string>, es: seq<GateEvent>)
    ensures var r := Run(Init(answers), es);
      r.guessing ==> |answers| > 0 && Distinct(answers) && r.heard == AnswerSet(answers)
  {
    RunPreservesInv(Init(answers), es);
    NextEnabledIffAllHeard(Run(Init(answers), es));
  }

  /** Once Next is enabled, a clip ending again changes nothing but that clip: completion happens once. */
  lemma CompletionOnce(g: Gate, i: nat)
    requires Inv(g) && g.nextEnabled && i < |g.answers|
    ensures ClipEnded(g, i).(clips := g.clips) == g
  {
    NextEnabledIffAllHeard(g);
  }

  /** Each listen button is marked heard exactly when its answer is in the heard set. */
  predicate MarksMatch(g: Gate)
    requires Wf(g)
  {
    forall j :: 0 <= j < |g.answers| ==> (g.states[j] == Heard <==> g.answers[j] in g.heard)
  }

  /** With distinct answers every event keeps the marks in step with the heard set. */
  lemma {:induction false} RunKeepsMarks(g: Gate, es: seq<GateEvent>)
    requires Wf(g) && Distinct(g.answers) && MarksMatch(g)
    ensures MarksMatch(Run(g, es))
    decreases |es|
  {
    if es != [] {
      var r := Step(g, es[0]);
      if PlayedToEnd(g, es[0]) {
        var i := es[0].index;
        forall j | 0 <= j < |g.answers| ensures r.states[j] == Heard <==> r.answers[j] in r.heard {
          if j != i { assert g.answers[j] != g.answers[i]; }
        }
      }
      RunKeepsMarks(r, es[1..]);
    }
  }

  /**
   * From the page as loaded, with distinct answers, listen button `j` is marked heard after a
   * sequence of events exactly when, at some point, its own clip ended while it was playing;
   * a clip stopped early by a click never counts.
   */
  lemma MarkedIffPlayedToEnd(answers: seq<string>, es: seq<GateEvent>, j: nat)
    requires Distinct(answers) && j < |answers|
    ensures Run(Init(answers), es).states[j] == Heard <==>
              exists m :: 0 <= m < |es| && es[m] == ClipFinished(j) && !Run(Init(answers), es[..m]).clips[j].paused
  {
    var g := Init(answers);
    RunKeepsMarks(g, es);
    HeardIffPlayedToEnd(g, es, answers[j]);
    if exists m :: 0 <= m < |es| && es[m] == ClipFinished(j) && !Run(g, es[..m]).clips[j].paused {
      var m :| 0 <= m < |es| && es[m] == ClipFinished(j) && !Run(g, es[..m]).clips[j].paused;
      assert EndedAt(g, es, m, answers[j]);
    }
    if answers[j] in Run(g, es).heard {
      var m :| EndedAt(g, es, m, answers[j]);
      assert es[m] == ClipFinished(j);
    }
  }

  /** The button of the last click in `es` on a listen button that exists, or -1 when there is none. */
  function LastClick(n: nat, es: seq<GateEvent>): (k: int)
    ensures -1 <= k < n
    ensures k == -1 <==> forall l :: 0 <= l < |es| ==> !IsClick(n, es[l])
    decreases |es|
  {
    if es == [] then -1
    else
      var later := LastClick(n, es[1..]);
      if later != -1 then later
      else if IsClick(n, es[0]) then es[0].index
      else -1
  }

  /** `LastClick` is button `j` iff `es` holds a click on `j` with no click on a listen button after it. */
  lemma {:induction false} LastClickIs(n: nat, es: seq<GateEvent>, j: nat)
    requires j < n
    ensures LastClick(n, es) == j <==>
              exists k :: 0 <= k < |es| && es[k] == ListenClicked(j) && forall l :: k < l < |es| ==> !IsClick(n, es[l])
    decreases |es|
  {
    if es != [] {
      var t := es[1..];
      LastClickIs(n, t, j);
      if LastClick(n, es) == j {
        if LastClick(n, t) == j {
          var k :| 0 <= k < |t| && t[k] == ListenClicked(j) && forall l :: k < l < |t| ==> !IsClick(n, t[l]);
          assert es[k + 1] == ListenClicked(j);
          forall l | k + 1 < l < |es| ensures !IsClick(n, es[l]) { assert es[l] == t[l - 1]; }
        } else {
          forall l | 0 < l < |es| ensures !IsClick(n, es[l]) { assert es[l] == t[l - 1]; }
        }
      }
      if exists k :: 0 <= k < |es| && es[k] == ListenClicked(j) && forall l :: k < l < |es| ==> !IsClick(n, es[l]) {
        var k :| 0 <= k < |es| && es[k] == ListenClicked(j) && forall l :: k < l < |es| ==> !IsClick(n, es[l]);
        if k > 0 {
          assert t[k - 1] == ListenClicked(j);
          forall l | k - 1 < l < |t| ensures !IsClick(n, t[l]) { assert t[l] == es[l + 1]; }
        } else {
          forall l | 0 <= l < |t| ensures !IsClick(n, t[l]) { assert t[l] == es[l + 1]; }
        }
      }
    }
  }

  /**
   * A listen clip plays after `es` only if it was started by the last click of `es`, or there was
   * no click and it was already playing.
   */
  lemma {:induction false} PlayingClip(g: Gate, es: seq<GateEvent>, j: nat)
    requires Wf(g) && j < |g.answers|
    ensures !Run(g, es).clips[j].paused ==>
              LastClick(|g.answers|, es) == j || (LastClick(|g.answers|, es) == -1 && !g.clips[j].paused)
    decreases |es|
  {
    if es != [] {
      var h := Step(g, es[0]);
      PlayingClip(h, es[1..], j);
    }
  }

  /** From the page as loaded, a listen clip is playing only when the last listen click was on its button. */
  lemma PlayingOnlyAfterOwnClick(answers: seq<string>, es: seq<GateEvent>, j: nat)
    requires j < |answers|
    ensures !Run(Init(answers), es).clips[j].paused ==> LastClick(|answers|, es) == j
  {
    PlayingClip(Init(answers), es, j);
  }

  /**
   * From the page as loaded, with distinct answers, a button marked heard had its clip end at a
   * moment when the last listen click had been on that very button: playing another sound first
   * stops it, and such an early stop is never counted as heard.
   */
  lemma MarkedOnlyAfterOwnClick(answers: seq<string>, es: seq<GateEvent>, j: nat)
    requires Distinct(answers) && j < |answers|
    ensures Run(Init(answers), es).states[j] == Heard ==>
              exists m :: 0 <= m < |es| && es[m] == ClipFinished(j) && LastClick(|answers|, es[..m]) == j
  {
    MarkedIffPlayedToEnd(answers, es, j);
    if Run(Init(answers), es).states[j] == Heard {
      var m :| 0 <= m < |es| && es[m] == ClipFinished(j) && !Run(Init(answers), es[..m]).clips[j].paused;
      PlayingOnlyAfterOwnClick(answers, es[..m], j);
    }
  }

  /**
   * Two listen buttons: a clip stopped by another click does not count, the second sound is heard,
   * an early Next is not delivered, the first sound is heard again from a click, then Next.
   */
  lemma TwoSoundsScenario()
    ensures var g0 := Init(["Chips", "Sprite"]);
      var g1 := Step(Step(g0, ListenClicked(0)), ListenClicked(1));
      var g2 := Step(g1, ClipFinished(0));
      var g3 := Step(g2, ClipFinished(1));
      var g4 := Step(g3, NextClicked);
      var g5 := Step(Step(g4, ListenClicked(0)), ClipFinished(0));
      var g6 := Step(g5, NextClicked);
      g1.clips[0].paused && !g1.clips[1].paused &&
      g2 == g1 &&
      g3.status == Progress(1, 1) && g3.states == [Neutral, Heard] && !g3.nextEnabled &&
      g4 == g3 &&
      g5.status == AllHeard && g5.nextEnabled && g5.states == [Heard, Heard] &&
      g6.guessing
  {
    var g0 := Init(["Chips", "Sprite"]);
    var g1 := Step(Step(g0, ListenClicked(0)), ListenClicked(1));
    var g3 := Step(Step(g1, ClipFinished(0)), ClipFinished(1));
    assert g3.heard == {"Sprite"};
    var g5 := Step(Step(Step(g3, NextClicked), ListenClicked(0)), ClipFinished(0));
    assert g5.heard == {"Sprite", "Chips"};
    assert "Chips" != "Sprite";
  }
}
