/** Deferred work made explicit. Every delayed callback of the session is a timer
    with a due time and a stamp recording the order in which timers were set.
    Timers fire in (due time, stamp) order, so timers due at the same time fire
    first in, first out, as the browser's do. Three timers live in single slots:
    the block hint's and the subtitle's, as the session keeps one handle to each,
    and the transition's next stage, of which at most one exists because a
    transition is refused while another runs. All other timers are held as a set
    of pending entries.
    The browser's event loop runs the callback of the first timer to fire. */
module Timers {
  import opened Types

  datatype Mood = ForestDrone | ChantingDrone

  /** Audio cues, kept only as a log of opaque effects. */
  datatype Cue = Footstep | InteractChime | Scare | GhostWhisper | DroneStart(mood: Mood) | DroneStop | TypeSound

  /** What runs when the last line of the open dialogue is acknowledged. */
  datatype Continuation = NoCallback | MeetingThenSearch | SetHasSeed | PlantedThenPath | DoorThenTemple | ClimaxSmash

  /** What runs at a transition's midpoint, right after the scene is swapped. */
  datatype MidAction = NoMidAction | ChantLater | ChantThenTempleIntro

  /** When a timer fires: its due time in milliseconds, then the order it was set in. */
  datatype Due = Due(at: nat, stamp: nat)

  /** `a` fires strictly before `b`. */
  predicate Before(a: Due, b: Due) {
    a.at < b.at || (a.at == b.at && a.stamp < b.stamp)
  }

  /** Firing order is a strict total order on due times. */
  lemma BeforeIsStrictTotal(a: Due, b: Due, c: Due)
    ensures !Before(a, a)
    ensures Before(a, b) ==> !Before(b, a)
    ensures Before(a, b) && Before(b, c) ==> Before(a, c)
    ensures a != b ==> Before(a, b) || Before(b, a)
  {
  }

  /** The next step of a running scene transition. */
  datatype FadeStage = FadeMidpoint(scene: GameScene, x: Position, onMid: MidAction) | FadeUncover | FadeDone

  datatype Staged = Staged(due: Due, stage: FadeStage)

  /** The pending callbacks. `TypeStep` and `ShakeStop` carry the dialogue box line
      they were set for, so that those of a superseded line are recognised. */
  datatype Event =
    | StandUp | OpenIntro | ChantDrone | OpenTempleIntro | ShowVisionTutorial
    | ClimaxDue | ShadowEmerges | OpenClimaxDialogue | Blackout | ShowEpilogue
    | TypeStep(line: nat) | ShakeStop(line: nat)

  datatype Pending = Pending(due: Due, event: Event)

  /** No due time in `s` comes before `d`, which is one of them. */
  ghost predicate FirstIn(d: Due, s: set<Due>) {
    d in s && forall e :: e in s ==> !Before(e, d)
  }

  /** Every non-empty set of due times has a first one. */
  lemma {:induction false} HasFirst(s: set<Due>)
    requires s != {}
    ensures exists d :: FirstIn(d, s)
    decreases |s|
  {
    var x :| x in s;
    if s == {x} {
      assert FirstIn(x, s);
    } else {
      HasFirst(s - {x});
      var m :| FirstIn(m, s - {x});
      if Before(x, m) {
        forall e | e in s
          ensures !Before(e, x)
        {
          if e != x {
            BeforeIsStrictTotal(e, m, x);
            BeforeIsStrictTotal(e, x, m);
          }
        }
        assert FirstIn(x, s);
      } else {
        assert FirstIn(m, s);
      }
    }
  }

  /** The first due time of a set is unique. */
  lemma FirstIsUnique(d: Due, e: Due, s: set<Due>)
    requires FirstIn(d, s) && FirstIn(e, s)
    ensures d == e
  {
    BeforeIsStrictTotal(d, e, d);
  }
}
