/** The session controller: one object holding the whole state of the App
    component, changed in place by the handlers the browser calls. Key, touch
    and click handlers and frames are called for input events; `Fire` runs the
    timer that fires first; `EvalTriggers` and `SubtitleEffect` are the two
    effects React runs, in that order, after each render. Every method's new
    state is given by a function of module AppSpec, and the handlers the browser
    calls keep the invariant of module AppProps. */
module App {
  import opened Types
  import opened Content
  import opened Timers
  import opened Rules
  import opened GameInput
  import opened DialogueBox
  import opened AppSpec
  import opened AppProps

  class Session {
    const content: Provider
    const input: HeldKeys
    const box: Typewriter

    var hasStarted: bool
    var game: GameState
    var version: nat
    var talk: Talk
    var screen: Screen
    var pose: Pose
    var clock: Clock
    var cues: seq<Cue>
    var timers: Schedule
    var seen: Seen

    /** The session's state as a value. */
    function Snapshot(): SessionState
      reads this, input, box
    {
      SessionState(content, hasStarted, game, version, talk, screen, pose, clock, cues, timers, seen,
                   input.keys, box.View())
    }

    ghost predicate Valid()
      reads this, input, box
    {
      Inv(Snapshot())
    }

    constructor (c: Provider)
      ensures Snapshot() == Initial(c) && Valid()
      ensures fresh(input) && fresh(box)
    {
      content := c;
      input := new HeldKeys();
      box := new Typewriter();
      hasStarted := false;
      game := InitialState;
      version := 0;
      talk := NoTalk;
      screen := Screen(false, false, false, false);
      pose := Pose(false, false, 1, false, false, 0);
      clock := Clock(0, false, None);
      cues := [];
      timers := Schedule(None, None, None, {}, 0);
      seen := Seen(None, None);
    }

    // ------------------------------------------------------------ timers

    /** The due time of a timer set now for `delay` milliseconds. */
    method NewDue(delay: nat) returns (d: Due)
      modifies this
      ensures d == Due(old(clock.now) + delay, old(timers.nextStamp))
      ensures Snapshot() == old(Snapshot()).(timers := old(timers).(nextStamp := old(timers.nextStamp) + 1))
    {
      d := Due(clock.now + delay, timers.nextStamp);
      timers := timers.(nextStamp := timers.nextStamp + 1);
    }

    method After(delay: nat, e: Event)
      modifies this
      ensures Snapshot() == WithTimer(old(Snapshot()), delay, e)
    {
      var d := NewDue(delay);
      timers := timers.(pending := timers.pending + {Pending(d, e)});
    }

    method SetGameState(g: GameState)
      modifies this
      ensures Snapshot() == WithGameState(old(Snapshot()), g)
    {
      game := g;
      version := version + 1;
    }

    method Play(c: seq<Cue>)
      modifies this
      ensures Snapshot() == Played(old(Snapshot()), c)
    {
      cues := cues + c;
    }

    // ---------------------------------------------------------- dialogue

    method PresentLine()
      modifies this, box
      ensures Snapshot() == Presented(old(Snapshot()))
    {
      var l := if talk.lines.Some? then LineAt(talk.lines.value, talk.index) else None;
      box.Show(l);
      if l.Some? && !HasText(l) {
        talk := talk.(typing := false);
      }
    }

    method ArmLineTimers()
      modifies this
      ensures Snapshot() == TimersArmed(old(Snapshot()))
    {
      timers := timers.(pending := timers.pending + LineTimers(clock.now, timers.nextStamp, box.generation,
                                                               Shakes(box.line), HasText(box.line)),
                        nextStamp := timers.nextStamp + 2);
    }

    method ShowLine()
      modifies this, box
      ensures Snapshot() == LineShown(old(Snapshot()))
    {
      PresentLine();
      ArmLineTimers();
    }

    method StartDialogue(lines: seq<DialogueLine>, k: Continuation)
      modifies this, box, input
      ensures Snapshot() == DialogueStarted(old(Snapshot()), lines, k)
    {
      input.Clear();
      pose := pose.(isMoving := false);
      talk := Talk(Some(lines), 0, true, false, k);
      ShowLine();
    }

    method SkipTyping()
      modifies this, box
      ensures Snapshot() == Skipped(old(Snapshot()))
    {
      var completed := box.ForceShow(true);
      talk := talk.(forceShow := true, typing := if completed then false else talk.typing);
    }

    method NextLine()
      modifies this, box
      ensures Snapshot() == MovedOn(old(Snapshot()))
    {
      talk := talk.(index := talk.index + 1, typing := true, forceShow := false);
      ShowLine();
    }

    method CloseDialogue()
      modifies this, box
      ensures Snapshot() == Closed(old(Snapshot()))
    {
      talk := talk.(lines := None, typing := false, callback := NoCallback);
      PresentLine();
    }

    method RunContinuation(k: Continuation)
      modifies this
      ensures Snapshot() == Resumed(old(Snapshot()), k)
    {
      match k
      case NoCallback =>
      case MeetingThenSearch =>
        SetGameState(game.(currentScene := Search, flags := ContinuationFlags(k, game.flags)));
        After(ShortDelayMs, ShowVisionTutorial);
      case SetHasSeed =>
        SetGameState(game.(flags := ContinuationFlags(k, game.flags)));
      case PlantedThenPath =>
        Play([DroneStop]);
        Transition(Path, 5.0, ChantLater);
      case DoorThenTemple =>
        Transition(Temple, 15.0, ChantThenTempleIntro);
      case ClimaxSmash =>
        Play([Scare]);
        pose := pose.(climaxStep := 2, screenShake := true);
        After(SmashMs, Blackout);
    }

    method FinishDialogue()
      modifies this, box
      ensures Snapshot() == Finished(old(Snapshot()))
    {
      var k := talk.callback;
      CloseDialogue();
      RunContinuation(k);
    }

    /** A click on the dialogue box, or Space or Enter with a dialogue open. */
    method Advance()
      requires Valid()
      modifies this, box
      ensures Valid()
      ensures Snapshot() == Advanced(old(Snapshot()))
    {
      AdvanceEvolves(Snapshot());
      if talk.lines.None? {
        return;
      }
      if talk.typing {
        SkipTyping();
      } else if talk.index + 1 < |talk.lines.value| {
        NextLine();
      } else {
        FinishDialogue();
      }
    }

    // ------------------------------------------------- transitions, hints, climax

    method Transition(scene: GameScene, x: Position, mid: MidAction)
      modifies this
      ensures Snapshot() == Transitioned(old(Snapshot()), scene, x, mid)
    {
      if timers.fade.Some? {
        return;
      }
      screen := screen.(covered := true);
      Stage(FadeOutMs, FadeMidpoint(scene, x, mid));
    }

    method ShowBlockHint()
      modifies this
      ensures Snapshot() == BlockHinted(old(Snapshot()))
    {
      if timers.blockHint.Some? {
        return;
      }
      var d := NewDue(BlockHintMs);
      timers := timers.(blockHint := Some(d));
    }

    method TriggerClimax()
      modifies this
      ensures Snapshot() == ClimaxTriggered(old(Snapshot()))
    {
      if game.currentScene == Climax {
        return;
      }
      Play([DroneStop, Scare]);
      SetGameState(game.(currentScene := Climax));
      pose := pose.(lyingDown := true, screenShake := true);
      After(FallMs, ShadowEmerges);
    }

    // ---------------------------------------------------------- interaction

    method OpenInteractionDialogue(k: Kind)
      modifies this, box, input
      ensures Snapshot() == InteractionOpened(old(Snapshot()), k)
    {
      var o := InteractionDialogue(k, game.flags);
      if o.Some? {
        StartDialogue(Script(content, o.value.script), o.value.after);
      }
    }

    /** An interaction with `target`, from the interact key or a click on the object. */
    method Interact(target: Interactable)
      requires Valid()
      modifies this, box, input
      ensures Valid()
      ensures Snapshot() == Interacted(old(Snapshot()), target)
    {
      InteractEvolves(Snapshot(), target);
      if target.completed == Some(true) || timers.fade.Some? || GameEnded || (target.kind == Seed && !pose.visionMode) {
        return;
      }
      var k := target.kind;
      var g := game;
      Play([InteractChime]);
      OpenInteractionDialogue(k);
      if ArmsClimax(k, g) {
        After(ClimaxDelayMs, ClimaxDue);
      }
      if SetsState(k, g.flags) {
        SetGameState(game.(flags := InteractionFlags(k, g.flags)));
      }
    }

    // ---------------------------------------------------------------- frames

    method Steer()
      modifies this
      ensures Snapshot() == Steered(old(Snapshot()))
    {
      var right := input.Has("ArrowRight") || input.Has("d");
      var left := input.Has("ArrowLeft") || input.Has("a");
      if right {
        screen := screen.(showTutorial := false);
        pose := pose.(facingDir := 1);
      }
      if left {
        if LeftBlocked(game.currentScene, game.playerX) {
          ShowBlockHint();
        } else {
          pose := pose.(facingDir := -1);
        }
      }
    }

    method Move(d: real)
      modifies this
      ensures Snapshot() == Moved(old(Snapshot()), d)
    {
      if d == 0.0 {
        pose := pose.(isMoving := false);
        return;
      }
      SetGameState(game.(playerX := ClampX(game.playerX + d)));
      pose := pose.(isMoving := true);
      if clock.lastFootstep.None? || clock.now - clock.lastFootstep.value > FootstepGapMs {
        Play([Footstep]);
        clock := clock.(lastFootstep := Some(clock.now));
      }
    }

    method Walk(dt: nat)
      requires dt <= MaxFrameMs
      modifies this
      ensures Snapshot() == Walked(old(Snapshot()), dt)
    {
      var right := input.Has("ArrowRight") || input.Has("d");
      var left := input.Has("ArrowLeft") || input.Has("a");
      var d := MoveDistance(right, left, LeftBlocked(game.currentScene, game.playerX), dt);
      Steer();
      Move(d);
    }

    /** A frame, `elapsed` milliseconds after the previous one. */
    method Tick(elapsed: nat)
      requires Valid()
      modifies this
      ensures Valid()
      ensures Snapshot() == Ticked(old(Snapshot()), elapsed)
    {
      TickEvolves(Snapshot(), elapsed);
      var dt := if clock.framed then FrameDelta(elapsed) else 0;
      Frame(elapsed);
      if pose.climaxStep > 0 || !hasStarted || GameEnded || screen.showEpilogue || talk.lines.Some?
         || pose.lyingDown || timers.fade.Some? {
        pose := pose.(isMoving := false);
      } else {
        Walk(dt);
      }
    }

    method Frame(elapsed: nat)
      modifies this
      ensures Snapshot() == Framed(old(Snapshot()), elapsed)
    {
      clock := clock.(framed := true, now := clock.now + elapsed);
    }

    // ------------------------------------------------------------ input events

    /** A click on the start screen, which is shown only before the game starts. */
    method Start()
      requires Valid() && !hasStarted
      modifies this
      ensures Valid()
      ensures Snapshot() == Started(old(Snapshot()))
    {
      StartEvolves(Snapshot());
      Play([DroneStart(ForestDrone)]);
      SetGameState(game.(currentScene := Forest));
      hasStarted := true;
      screen := screen.(showTutorial := true);
      pose := pose.(lyingDown := true);
      After(StandUpMs, StandUp);
    }

    /** A key press, as the held-key tracker sees it. */
    method KeyDown(key: string)
      requires Valid()
      modifies input
      ensures Valid()
      ensures Snapshot() == KeyPressed(old(Snapshot()), key)
    {
      input.KeyDown(key, hasStarted && !GameEnded && !screen.showEpilogue);
    }

    method KeyUp(key: string)
      requires Valid()
      modifies input
      ensures Valid()
      ensures Snapshot() == KeyReleased(old(Snapshot()), key)
    {
      input.KeyUp(key);
    }

    method TouchStart(key: string)
      requires Valid()
      modifies input
      ensures Valid()
      ensures Snapshot() == TouchPressed(old(Snapshot()), key)
    {
      input.AddKey(key);
    }

    method TouchEnd(key: string)
      requires Valid()
      modifies input
      ensures Valid()
      ensures Snapshot() == KeyReleased(old(Snapshot()), key)
    {
      input.RemoveKey(key);
    }

    method TouchVision()
      requires Valid()
      modifies this
      ensures Valid()
      ensures Snapshot() == VisionTouched(old(Snapshot()))
    {
      pose := pose.(visionMode := !pose.visionMode);
    }

    method ToggleVision()
      requires Valid()
      modifies this
      ensures Valid()
      ensures Snapshot() == VisionToggled(old(Snapshot()))
    {
      pose := pose.(visionMode := !pose.visionMode);
      screen := screen.(showVisionTutorial := false);
    }

    /** Space or Enter. */
    method PressInteract()
      requires Valid()
      modifies this, box, input
      ensures Valid()
      ensures Snapshot() == InteractPressed(old(Snapshot()))
    {
      if talk.lines.Some? {
        Advance();
      } else if !pose.lyingDown && pose.climaxStep == 0 {
        var target := Resolve(Interactables(game.currentScene, game.flags), game.playerX);
        if target.Some? {
          Interact(target.value);
        }
      }
    }

    /** The session's own key listener. */
    method KeyCommand(key: string)
      requires Valid()
      modifies this, box, input
      ensures Valid()
      ensures Snapshot() == Commanded(old(Snapshot()), key)
    {
      CommandEvolves(Snapshot(), key);
      if !(hasStarted && !GameEnded && !screen.showEpilogue) {
        return;
      }
      if key == "f" || key == "F" {
        ToggleVision();
      } else if key == " " || key == "Enter" {
        PressInteract();
      }
    }

    // ----------------------------------------------------------------- effects

    method EvalTriggers()
      requires Valid()
      modifies this, box, input
      ensures Valid()
      ensures Snapshot() == TriggersEvaluated(old(Snapshot()))
    {
      TriggersEvolve(Snapshot());
      if seen.triggers == Some(version) {
        return;
      }
      seen := seen.(triggers := Some(version));
      match TriggerFor(game, timers.fade.Some?)
      case NoTrigger =>
      case EnterMeeting =>
        Transition(Meeting, 2.0, NoMidAction);
      case MeetNineSong =>
        StartDialogue(content.meeting, MeetingThenSearch);
    }

    method SelectSubtitle()
      modifies this
      ensures Snapshot() == SubtitleSelected(old(Snapshot()))
    {
      var n := NearbySubtitle(SceneSubtitles(content, game.currentScene), game.playerX);
      var shown := if timers.caption.Some? then Some(timers.caption.value.subtitle) else None;
      if Replaces(shown, n) {
        if game.currentScene == Forest {
          Play([GhostWhisper]);
        }
        var d := NewDue(SubtitleDuration(n.value));
        timers := timers.(caption := Some(Caption(n.value, d)));
      }
    }

    method SubtitleEffect()
      requires Valid()
      modifies this
      ensures Valid()
      ensures Snapshot() == SubtitleRan(old(Snapshot()))
    {
      SubtitleEvolves(Snapshot());
      var shown := if timers.caption.Some? then Some(timers.caption.value.subtitle) else None;
      var deps := SubtitleDeps(game.playerX, game.currentScene, shown);
      if seen.subtitle == Some(deps) {
        return;
      }
      seen := seen.(subtitle := Some(deps));
      SelectSubtitle();
    }

    // ------------------------------------------------------------------ timers

    method RunMidAction(m: MidAction)
      modifies this
      ensures Snapshot() == MidActed(old(Snapshot()), m)
    {
      match m
      case NoMidAction =>
      case ChantLater =>
        After(ShortDelayMs, ChantDrone);
      case ChantThenTempleIntro =>
        Play([DroneStart(ChantingDrone)]);
        After(ShortDelayMs, OpenTempleIntro);
    }

    method Stage(delay: nat, stage: FadeStage)
      modifies this
      ensures Snapshot() == Staging(old(Snapshot()), delay, stage)
    {
      var d := NewDue(delay);
      timers := timers.(fade := Some(Staged(d, stage)));
    }

    method StepFade()
      requires timers.fade.Some?
      modifies this
      ensures Snapshot() == FadeStepped(old(Snapshot()))
    {
      match timers.fade.value.stage
      case FadeMidpoint(scene, x, mid) =>
        SetGameState(game.(currentScene := scene, playerX := x));
        RunMidAction(mid);
        Stage(FadeHoldMs, FadeUncover);
      case FadeUncover =>
        screen := screen.(covered := false);
        Stage(FadeInMs, FadeDone);
      case FadeDone =>
        timers := timers.(fade := None);
    }

    method TypeStepLine(g: nat)
      modifies this, box
      ensures Snapshot() == TypeStepped(old(Snapshot()), g)
    {
      if !(g == box.generation && StepDue(box.View(), talk.forceShow)) {
        return;
      }
      if box.charIndex % 3 == 0 {
        Play([TypeSound]);
      }
      box.Step(g, talk.forceShow);
      if FullyShown(box.View()) {
        talk := talk.(typing := false);
      } else {
        After(StepMs, TypeStep(g));
      }
    }

    method Run(e: Event)
      modifies this, box, input
      ensures Snapshot() == Ran(old(Snapshot()), e)
    {
      match e
      case StandUp =>
        pose := pose.(lyingDown := false);
        After(ShortDelayMs, OpenIntro);
      case OpenIntro =>
        StartDialogue(content.intro, NoCallback);
      case ChantDrone =>
        Play([DroneStart(ChantingDrone)]);
      case OpenTempleIntro =>
        StartDialogue(content.templeIntro, NoCallback);
      case ShowVisionTutorial =>
        screen := screen.(showVisionTutorial := true);
      case ClimaxDue =>
        TriggerClimax();
      case ShadowEmerges =>
        Play([DroneStart(ForestDrone)]);
        pose := pose.(climaxStep := 1);
        After(RiseMs, OpenClimaxDialogue);
      case OpenClimaxDialogue =>
        StartDialogue(content.climax, ClimaxSmash);
      case Blackout =>
        screen := screen.(covered := true);
        pose := pose.(screenShake := false);
        After(BlackoutMs, ShowEpilogue);
      case ShowEpilogue =>
        screen := screen.(showEpilogue := true, covered := false);
      case TypeStep(g) =>
        TypeStepLine(g);
      case ShakeStop(g) =>
        box.StopShake(g);
    }

    /** The event loop runs the callback of `t`, the timer that fires first. */
    method Fire(t: Timer)
      requires Valid() && Ready(Snapshot(), t)
      modifies this, box, input
      ensures Valid()
      ensures Snapshot() == Fired(old(Snapshot()), t)
    {
      FiredEvolves(Snapshot(), t);
      var due := match t
        case Queued(p) => p.due
        case FadeStep => timers.fade.value.due
        case BlockHintEnd => timers.blockHint.value
        case SubtitleEnd => timers.caption.value.hideAt;
      clock := clock.(now := Max(clock.now, due.at));
      match t
      case Queued(p) =>
        timers := timers.(pending := timers.pending - {p});
        Run(p.event);
      case FadeStep =>
        StepFade();
      case BlockHintEnd =>
        timers := timers.(blockHint := None);
      case SubtitleEnd =>
        timers := timers.(caption := None);
    }
  }
}
