/** What the session's handlers promise, stated on the values of module AppSpec:
    every handler keeps the invariant and moves the session forward (no story flag
    is unset; the clock, the timer stamps and the game state version never go back;
    played cues are never taken back), and the properties of each handler. */
module AppProps {
  import opened Types
  import opened Content
  import opened Timers
  import opened Rules
  import opened DialogueBox
  import opened AppSpec

  /** `t` follows `s`: the invariant holds of `t`, and `t` is no earlier than `s`. */
  predicate Evolves(s: SessionState, t: SessionState) {
    && Inv(t) && FlagsLe(s.game.flags, t.game.flags)
    && s.clock.now <= t.clock.now && s.timers.nextStamp <= t.timers.nextStamp && s.version <= t.version
    && s.cues <= t.cues
  }

  lemma EvolvesTrans(a: SessionState, b: SessionState, c: SessionState)
    requires Evolves(a, b) && Evolves(b, c)
    ensures Evolves(a, c)
  {
    FlagsLeTransitive(a.game.flags, b.game.flags, c.game.flags);
  }

  // ------------------------------------------------------- the building blocks

  /** An update that leaves the dialogue and the box alone keeps the invariant
      when it keeps the stamps fresh. */
  lemma QuietKeepsInv(s: SessionState, t: SessionState)
    requires Inv(s) && t.talk == s.talk && t.box == s.box && StampsFresh(t)
    ensures Inv(t)
  {
  }

  lemma TimerEvolves(s: SessionState, delay: nat, e: Event)
    requires Inv(s)
    ensures Evolves(s, WithTimer(s, delay, e))
  {
    QuietKeepsInv(s, WithTimer(s, delay, e));
  }

  lemma GameStateEvolves(s: SessionState, g: GameState)
    requires Inv(s) && FlagsLe(s.game.flags, g.flags)
    ensures Evolves(s, WithGameState(s, g))
  {
    QuietKeepsInv(s, WithGameState(s, g));
  }

  lemma PlayedEvolves(s: SessionState, c: seq<Cue>)
    requires Inv(s)
    ensures Evolves(s, Played(s, c))
  {
    QuietKeepsInv(s, Played(s, c));
  }

  /** A line shown for a dialogue at a valid index, reported as typing and without
      force-show, leaves the box and the flags in step. */
  lemma LineShownKeepsInv(s: SessionState)
    requires StampsFresh(s) && s.talk.lines.Some? && s.talk.typing && !s.talk.forceShow
    requires |Lines(s)| > 0 ==> s.talk.index < |Lines(s)|
    ensures Inv(LineShown(s))
    ensures LineShown(s).timers.nextStamp == s.timers.nextStamp + 2
  {
    var p := Presented(s);
    ShownRestarts(s.box, CurrentLine(s));
    assert DialogueSynced(p);
    var t := LineShown(s);
    forall q | q in t.timers.pending
      ensures q.due.stamp < t.timers.nextStamp
    {
    }
  }

  lemma DialogueStartEvolves(s: SessionState, lines: seq<DialogueLine>, k: Continuation)
    requires Inv(s)
    ensures Evolves(s, DialogueStarted(s, lines, k))
  {
    LineShownKeepsInv(s.(keys := {}, pose := s.pose.(isMoving := false), talk := Talk(Some(lines), 0, true, false, k)));
  }

  lemma TransitionEvolves(s: SessionState, scene: GameScene, x: Position, mid: MidAction)
    requires Inv(s)
    ensures Evolves(s, Transitioned(s, scene, x, mid))
  {
    QuietKeepsInv(s, Transitioned(s, scene, x, mid));
  }

  lemma BlockHintEvolves(s: SessionState)
    requires Inv(s)
    ensures Evolves(s, BlockHinted(s))
  {
    QuietKeepsInv(s, BlockHinted(s));
  }

  lemma ClimaxEvolves(s: SessionState)
    requires Inv(s)
    ensures Evolves(s, ClimaxTriggered(s))
  {
    QuietKeepsInv(s, ClimaxTriggered(s));
  }

  lemma ResumeEvolves(s: SessionState, k: Continuation)
    requires Inv(s)
    ensures Evolves(s, Resumed(s, k))
  {
    match k
    case NoCallback =>
    case MeetingThenSearch =>
      var g := WithGameState(s, s.game.(currentScene := Search, flags := ContinuationFlags(k, s.game.flags)));
      GameStateEvolves(s, g.game);
      TimerEvolves(g, ShortDelayMs, ShowVisionTutorial);
      EvolvesTrans(s, g, Resumed(s, k));
    case SetHasSeed =>
      GameStateEvolves(s, s.game.(flags := ContinuationFlags(k, s.game.flags)));
    case PlantedThenPath =>
      PlayedEvolves(s, [DroneStop]);
      TransitionEvolves(Played(s, [DroneStop]), Path, 5.0, ChantLater);
      EvolvesTrans(s, Played(s, [DroneStop]), Resumed(s, k));
    case DoorThenTemple =>
      TransitionEvolves(s, Temple, 15.0, ChantThenTempleIntro);
    case ClimaxSmash =>
      QuietKeepsInv(s, Resumed(s, k));
  }

  lemma ClosedKeepsInv(s: SessionState)
    requires Inv(s)
    ensures Evolves(s, Closed(s))
  {
    ShownRestarts(s.box, None);
  }

  lemma SkipEvolves(s: SessionState)
    requires Inv(s)
    ensures Evolves(s, Skipped(s))
  {
    ForcedCompletes(s.box, true);
  }

  lemma AdvanceEvolves(s: SessionState)
    requires Inv(s)
    ensures Evolves(s, Advanced(s))
  {
    if s.talk.lines.None? {
    } else if s.talk.typing {
      SkipEvolves(s);
    } else if s.talk.index + 1 < |Lines(s)| {
      LineShownKeepsInv(s.(talk := s.talk.(index := s.talk.index + 1, typing := true, forceShow := false)));
    } else {
      ClosedKeepsInv(s);
      ResumeEvolves(Closed(s), s.talk.callback);
      EvolvesTrans(s, Closed(s), Finished(s));
    }
  }

  lemma InteractEvolves(s: SessionState, target: Interactable)
    requires Inv(s)
    ensures Evolves(s, Interacted(s, target))
  {
    if !Ignores(s, target) {
      var k := target.kind;
      var a := Played(s, [InteractChime]);
      PlayedEvolves(s, [InteractChime]);
      var b := InteractionOpened(a, k);
      match InteractionDialogue(k, a.game.flags)
      case Some(o) => DialogueStartEvolves(a, Script(a.content, o.script), o.after);
      case None =>
      EvolvesTrans(s, a, b);
      var c := if ArmsClimax(k, s.game) then WithTimer(b, ClimaxDelayMs, ClimaxDue) else b;
      if ArmsClimax(k, s.game) {
        TimerEvolves(b, ClimaxDelayMs, ClimaxDue);
        EvolvesTrans(s, b, c);
      }
      if SetsState(k, s.game.flags) {
        FlagsLeTransitive(c.game.flags, s.game.flags, InteractionFlags(k, s.game.flags));
        GameStateEvolves(c, c.game.(flags := InteractionFlags(k, s.game.flags)));
        EvolvesTrans(s, c, Interacted(s, target));
      }
    }
  }

  lemma SteerEvolves(s: SessionState)
    requires Inv(s)
    ensures Evolves(s, Steered(s))
  {
    var a := if HoldsRight(s) then s.(screen := s.screen.(showTutorial := false), pose := s.pose.(facingDir := 1)) else s;
    QuietKeepsInv(s, a);
    if HoldsLeft(s) && LeftBlocked(s.game.currentScene, s.game.playerX) {
      BlockHintEvolves(a);
    } else {
      QuietKeepsInv(a, Steered(s));
    }
  }

  lemma MoveEvolves(s: SessionState, d: real)
    requires Inv(s)
    ensures Evolves(s, Moved(s, d))
  {
    QuietKeepsInv(s, Moved(s, d));
  }

  lemma WalkEvolves(s: SessionState, dt: nat)
    requires Inv(s) && dt <= MaxFrameMs
    ensures Evolves(s, Walked(s, dt))
  {
    SteerEvolves(s);
    MoveEvolves(Steered(s), MoveDistance(HoldsRight(s), HoldsLeft(s), LeftBlocked(s.game.currentScene, s.game.playerX), dt));
    EvolvesTrans(s, Steered(s), Walked(s, dt));
  }

  lemma TickEvolves(s: SessionState, elapsed: nat)
    requires Inv(s)
    ensures Evolves(s, Ticked(s, elapsed))
  {
    FramedEvolves(s, Framed(s, elapsed), FrameTime(s, elapsed));
  }

  /** The clock update of a frame, followed by a halt or a walk; the updated state
      is a parameter so that the proof reasons about it as one value. */
  lemma FramedEvolves(s: SessionState, t: SessionState, dt: nat)
    requires Inv(s) && t == s.(clock := t.clock) && s.clock.now <= t.clock.now && dt <= MaxFrameMs
    ensures Evolves(s, Halted(t)) && Evolves(s, Walked(t, dt))
  {
    QuietKeepsInv(s, t);
    QuietKeepsInv(s, Halted(t));
    WalkEvolves(t, dt);
    EvolvesTrans(s, t, Walked(t, dt));
  }

  lemma StartEvolves(s: SessionState)
    requires Inv(s)
    ensures Evolves(s, Started(s))
  {
    QuietKeepsInv(s, Started(s));
  }

  lemma CommandEvolves(s: SessionState, key: string)
    requires Inv(s)
    ensures Evolves(s, Commanded(s, key))
  {
    if InputActive(s) && !(key == "f" || key == "F") && (key == " " || key == "Enter") {
      if s.talk.lines.Some? {
        AdvanceEvolves(s);
      } else if !s.pose.lyingDown && s.pose.climaxStep == 0 && InReach(s).Some? {
        InteractEvolves(s, InReach(s).value);
      }
    }
  }

  lemma TriggersEvolve(s: SessionState)
    requires Inv(s)
    ensures Evolves(s, TriggersEvaluated(s))
  {
    var t := s.(seen := s.seen.(triggers := Some(s.version)));
    QuietKeepsInv(s, t);
    if s.seen.triggers != Some(s.version) {
      match TriggerFor(s.game, Transitioning(s))
      case NoTrigger =>
      case EnterMeeting => TransitionEvolves(t, Meeting, 2.0, NoMidAction);
      case MeetNineSong => DialogueStartEvolves(t, s.content.meeting, MeetingThenSearch);
    }
  }

  lemma SubtitleEvolves(s: SessionState)
    requires Inv(s)
    ensures Evolves(s, SubtitleRan(s))
  {
    var t := s.(seen := s.seen.(subtitle := Some(SubtitleDepsOf(s))));
    QuietKeepsInv(s, t);
    QuietKeepsInv(t, SubtitleSelected(t));
  }

  lemma FadeEvolves(s: SessionState)
    requires Inv(s) && s.timers.fade.Some?
    ensures Evolves(s, FadeStepped(s))
  {
    match s.timers.fade.value.stage
    case FadeMidpoint(scene, x, mid) =>
      var g := WithGameState(s, s.game.(currentScene := scene, playerX := x));
      QuietKeepsInv(s, g);
      var m := MidActed(g, mid);
      QuietKeepsInv(g, m);
      QuietKeepsInv(m, FadeStepped(s));
    case FadeUncover =>
      QuietKeepsInv(s, FadeStepped(s));
    case FadeDone =>
      QuietKeepsInv(s, FadeStepped(s));
  }

  lemma TypeStepEvolves(s: SessionState, g: nat)
    requires Inv(s)
    ensures Evolves(s, TypeStepped(s, g))
  {
    if g == s.box.generation && StepDue(s.box, s.talk.forceShow) {
      var b := Stepped(s.box, g, s.talk.forceShow);
      StepKeepsPrefix(s.box, g, s.talk.forceShow);
      FullyShownIffNotTyping(b);
      var t := (if s.box.charIndex % 3 == 0 then Played(s, [TypeSound]) else s).(box := b);
      if !FullyShown(b) {
        assert Inv(t);
        TimerEvolves(t, StepMs, TypeStep(g));
      }
    }
  }

  lemma RanEvolves(s: SessionState, e: Event)
    requires Inv(s)
    ensures Evolves(s, Ran(s, e))
  {
    match e
    case StandUp => QuietKeepsInv(s, Ran(s, e));
    case OpenIntro => DialogueStartEvolves(s, s.content.intro, NoCallback);
    case ChantDrone => PlayedEvolves(s, [DroneStart(ChantingDrone)]);
    case OpenTempleIntro => DialogueStartEvolves(s, s.content.templeIntro, NoCallback);
    case ShowVisionTutorial => QuietKeepsInv(s, Ran(s, e));
    case ClimaxDue => ClimaxEvolves(s);
    case ShadowEmerges => QuietKeepsInv(s, Ran(s, e));
    case OpenClimaxDialogue => DialogueStartEvolves(s, s.content.climax, ClimaxSmash);
    case Blackout => QuietKeepsInv(s, Ran(s, e));
    case ShowEpilogue => QuietKeepsInv(s, Ran(s, e));
    case TypeStep(g) => TypeStepEvolves(s, g);
    case ShakeStop(g) =>
  }

  lemma FiredEvolves(s: SessionState, t: Timer)
    requires Inv(s) && IsSet(s, t)
    ensures Evolves(s, Fired(s, t))
  {
    var r := Reached(s, DueOf(s, t));
    QuietKeepsInv(s, r);
    match t
    case Queued(p) =>
      var q := r.(timers := r.timers.(pending := r.timers.pending - {p}));
      QuietKeepsInv(r, q);
      RanEvolves(q, p.event);
      EvolvesTrans(s, q, Fired(s, t));
    case FadeStep =>
      FadeEvolves(r);
      EvolvesTrans(s, r, Fired(s, t));
    case BlockHintEnd => QuietKeepsInv(r, Fired(s, t));
    case SubtitleEnd => QuietKeepsInv(r, Fired(s, t));
  }
}
