/** The properties the session's handlers promise one by one: what a dialogue start,
    an acknowledgement, an interaction, a transition, a frame, the effects and the
    timers do and leave alone, stated on the values of module AppSpec. */
module AppLaws {
  import opened Types
  import opened Content
  import opened Timers
  import opened Rules
  import opened DialogueBox
  import opened AppSpec
  import opened AppProps

  // ------------------------------------------------------------------ start-up

  /** The session begins on the start screen: no dialogue, no timer, input inactive,
      frames frozen, and the invariant holds. */
  lemma InitialIsQuiet(c: Provider)
    ensures Inv(Initial(c)) && Outstanding(Initial(c)) == {}
    ensures Frozen(Initial(c)) && !InputActive(Initial(c))
    ensures Initial(c).game == InitialState && Initial(c).keys == {}
  {
  }

  /** The click on the start screen: the game starts in the forest with the player
      lying down, the forest drone starts, and standing up is due in three seconds. */
  lemma StartBeginsTheForest(s: SessionState)
    ensures var t := Started(s);
      && t.hasStarted && t.game.currentScene == Forest && t.pose.lyingDown && t.screen.showTutorial
      && t.cues == s.cues + [DroneStart(ForestDrone)]
      && Pending(Due(s.clock.now + StandUpMs, s.timers.nextStamp), StandUp) in t.timers.pending
      && t.talk == s.talk && t.game.playerX == s.game.playerX && t.game.flags == s.game.flags
  {
  }

  // ----------------------------------------------------------------- dialogues

  /** Opening a dialogue drops the held keys, stops walking, shows its first line
      from nothing, and stores `k` in place of the previous continuation, which does
      not run: the game state and the cues are left alone. */
  lemma DialogueStartResets(s: SessionState, lines: seq<DialogueLine>, k: Continuation)
    ensures var t := DialogueStarted(s, lines, k);
      && t.keys == {} && !t.pose.isMoving
      && t.talk.lines == Some(lines) && t.talk.index == 0 && !t.talk.forceShow && t.talk.callback == k
      && (t.talk.typing <==> !(|lines| > 0 && |lines[0].text| == 0))
      && t.box.line == LineAt(lines, 0) && t.box.displayedText == [] && t.box.charIndex == 0
      && t.game == s.game && t.version == s.version && t.cues == s.cues
  {
    ShownRestarts(s.box, LineAt(lines, 0));
  }

  /** An acknowledgement while the line is still typing only completes it: the whole
      line is on screen, typing is reported complete, and the dialogue stays on it. */
  lemma AdvanceCompletesTyping(s: SessionState)
    requires Inv(s) && s.talk.lines.Some? && |Lines(s)| > 0 && s.talk.typing
    ensures var t := Advanced(s);
      && t.talk == s.talk.(forceShow := true, typing := false)
      && FullyShown(t.box) && t.box.line == s.box.line
      && t.game == s.game && t.timers == s.timers && t.cues == s.cues
  {
    ForcedCompletes(s.box, true);
  }

  /** An acknowledgement of a complete line that is not the last shows the next line
      from nothing, without force-show, and keeps the stored continuation. */
  lemma AdvanceShowsNextLine(s: SessionState)
    requires Inv(s) && s.talk.lines.Some? && !s.talk.typing && s.talk.index + 1 < |Lines(s)|
    ensures var t := Advanced(s);
      && t.talk.lines == s.talk.lines && t.talk.index == s.talk.index + 1
      && !t.talk.forceShow && t.talk.callback == s.talk.callback
      && t.box.line == Some(Lines(s)[s.talk.index + 1]) && t.box.displayedText == [] && t.box.charIndex == 0
      && t.game == s.game && t.cues == s.cues
  {
    ShownRestarts(s.box, Some(Lines(s)[s.talk.index + 1]));
  }

  /** An acknowledgement of the last line closes the dialogue and then runs the stored
      continuation on the closed state (whose effects `FinishedCloses` states); the
      continuation is cleared, so a second acknowledgement does nothing. */
  lemma AdvanceFinishesDialogue(s: SessionState)
    requires Inv(s) && s.talk.lines.Some? && !s.talk.typing && s.talk.index + 1 >= |Lines(s)|
    ensures var t := Advanced(s);
      && t.talk.lines.None? && t.talk.callback == NoCallback && t.box.line.None?
      && Advanced(t) == t
    ensures Advanced(s) == Resumed(Closed(s), s.talk.callback)
    ensures Closed(s).talk.lines.None? && Closed(s).talk.callback == NoCallback && Closed(s).box.line.None?
  {
    FinishedCloses(Closed(s), s.talk.callback);
  }

  /** What each continuation does once its dialogue has closed. */
  lemma FinishedCloses(s: SessionState, k: Continuation)
    requires s.talk.lines.None? && s.talk.callback == NoCallback && s.box.line.None?
    ensures var t := Resumed(s, k);
      && t.talk == s.talk && t.box == s.box
      && (k == NoCallback ==> t == s)
      && (k == MeetingThenSearch ==>
            && t.game == s.game.(currentScene := Search, flags := s.game.flags.(hasMetNineSong := true))
            && t.cues == s.cues && t.timers.fade == s.timers.fade
            && t.timers.pending == s.timers.pending + {Pending(Due(s.clock.now + ShortDelayMs, s.timers.nextStamp), ShowVisionTutorial)})
      && (k == SetHasSeed ==>
            t.game == s.game.(flags := s.game.flags.(hasSeed := true)) && t.cues == s.cues && t.timers == s.timers)
      && (k == PlantedThenPath ==>
            t.game == s.game && t.cues == s.cues + [DroneStop] && t.timers.pending == s.timers.pending
            && (!Transitioning(s) ==> t.timers.fade.Some? && t.timers.fade.value.stage == FadeMidpoint(Path, 5.0, ChantLater)))
      && (k == DoorThenTemple ==>
            t.game == s.game && t.cues == s.cues && t.timers.pending == s.timers.pending
            && (!Transitioning(s) ==> t.timers.fade.Some? && t.timers.fade.value.stage == FadeMidpoint(Temple, 15.0, ChantThenTempleIntro)))
      && (k == ClimaxSmash ==>
            && t.game == s.game && t.pose.climaxStep == 2 && t.pose.screenShake && t.cues == s.cues + [Scare]
            && t.timers.fade == s.timers.fade
            && t.timers.pending == s.timers.pending + {Pending(Due(s.clock.now + SmashMs, s.timers.nextStamp), Blackout)})
      && (k != ClimaxSmash ==> t.pose == s.pose)
  {
  }

  /** Nothing happens to an acknowledgement without a dialogue. */
  lemma AdvanceWithoutDialogue(s: SessionState)
    requires s.talk.lines.None?
    ensures Advanced(s) == s
  {
  }

  // -------------------------------------------------------------- interactions

  /** A completed target, any target during a transition, and the seed without
      vision mode are ignored: nothing at all changes. */
  lemma IgnoredInteractionChangesNothing(s: SessionState, target: Interactable)
    requires Ignores(s, target)
    ensures Interacted(s, target) == s
  {
  }

  /** An accepted interaction plays the chime and nothing else, records the altar
      rite of an altar (and no flag the target does not own), and sets the climax
      timer exactly when it is the rite that completes the ritual outside the climax. */
  lemma AcceptedInteraction(s: SessionState, target: Interactable)
    requires Inv(s) && !Ignores(s, target)
    ensures var t := Interacted(s, target);
      && t.cues == s.cues + [InteractChime]
      && t.game.flags == InteractionFlags(target.kind, s.game.flags)
      && t.game.currentScene == s.game.currentScene && t.game.playerX == s.game.playerX
      && (IsAltar(target.kind) ==> AltarFlag(target.kind, t.game.flags) == Some(true) && t.talk == s.talk)
      && (ArmsClimax(target.kind, s.game) <==>
            Pending(Due(s.clock.now + ClimaxDelayMs, s.timers.nextStamp), ClimaxDue) in t.timers.pending)
  {
    var k := target.kind;
    var a := Played(s, [InteractChime]);
    var b := InteractionOpened(a, k);
    if IsAltar(k) {
      assert b == a;
    } else {
      assert !ArmsClimax(k, s.game);
      OpenedSetsNoTimer(a, k);
    }
  }

  /** A dialogue an interaction opens sets only the box's timers, never the climax timer. */
  lemma OpenedSetsNoTimer(s: SessionState, k: Kind)
    ensures s.timers.pending <= InteractionOpened(s, k).timers.pending
    ensures forall p :: p in InteractionOpened(s, k).timers.pending - s.timers.pending ==>
              (p.event.TypeStep? || p.event.ShakeStop?) && p.due.stamp >= s.timers.nextStamp
  {
  }

  /** The pot plants the seed exactly when the seed is held and not yet planted: the
      flag is set before the planting dialogue opens with its continuation. Otherwise
      the pot opens nothing and sets nothing. */
  lemma PotPlantsHeldSeed(s: SessionState, target: Interactable)
    requires !Ignores(s, target) && target.kind == Pot
    ensures var t := Interacted(s, target);
      && (s.game.flags.hasSeed && !s.game.flags.seedPlanted ==>
            && t.game.flags == s.game.flags.(seedPlanted := true)
            && t.talk.lines == Some(Script(s.content, PlantedSeedScript)) && t.talk.callback == PlantedThenPath)
      && (!(s.game.flags.hasSeed && !s.game.flags.seedPlanted) ==>
            t.game == s.game && t.talk == s.talk && t.box == s.box)
  {
  }

  /** The seed spot opens the found-seed dialogue only while the seed is not held;
      the seed itself is recorded only when that dialogue finishes. */
  lemma SeedFoundLater(s: SessionState, target: Interactable)
    requires !Ignores(s, target) && target.kind == Seed
    ensures var t := Interacted(s, target);
      && s.pose.visionMode
      && t.game == s.game
      && (!s.game.flags.hasSeed ==>
            t.talk.lines == Some(Script(s.content, FoundSeedScript)) && t.talk.callback == SetHasSeed)
      && (s.game.flags.hasSeed ==> t.talk == s.talk && t.box == s.box)
  {
  }

  /** Space or Enter: an open dialogue advances; otherwise, while the player is down
      or the climax has begun, nothing happens; otherwise the first object in reach is
      interacted with, and with nothing in reach nothing happens. */
  lemma InteractKeyDispatch(s: SessionState)
    ensures s.talk.lines.Some? ==> InteractPressed(s) == Advanced(s)
    ensures s.talk.lines.None? && (s.pose.lyingDown || s.pose.climaxStep > 0 || InReach(s).None?) ==>
              InteractPressed(s) == s
    ensures s.talk.lines.None? && !s.pose.lyingDown && s.pose.climaxStep == 0 && InReach(s).Some? ==>
              InteractPressed(s) == Interacted(s, InReach(s).value)
  {
  }

  // ------------------------------------------------------------------- climax

  /** The climax starts at most once: in the climax scene the trigger does nothing, so
      a second trigger does nothing; the first stops the drone, plays the scare, falls
      the player and sets the shadow's timer. */
  lemma ClimaxTriggersOnce(s: SessionState)
    ensures s.game.currentScene == Climax ==> ClimaxTriggered(s) == s
    ensures ClimaxTriggered(ClimaxTriggered(s)) == ClimaxTriggered(s)
    ensures s.game.currentScene != Climax ==>
              var t := ClimaxTriggered(s);
              && t.game == s.game.(currentScene := Climax) && t.pose.lyingDown && t.pose.screenShake
              && t.cues == s.cues + [DroneStop, Scare]
              && Pending(Due(s.clock.now + FallMs, s.timers.nextStamp), ShadowEmerges) in t.timers.pending
  {
  }

  /** The climax step moves only forward: the shadow's timer takes it from 0 to 1 and
      no other timer callback changes it; the climax dialogue's end takes it to 2. */
  lemma ClimaxStepAdvances(s: SessionState, e: Event)
    ensures e == ShadowEmerges ==> Ran(s, e).pose.climaxStep == 1
    ensures e != ShadowEmerges ==> Ran(s, e).pose.climaxStep == s.pose.climaxStep
    ensures e == OpenClimaxDialogue ==> Ran(s, e).talk.callback == ClimaxSmash
  {
  }

  // -------------------------------------------------------------- transitions

  /** A transition requested while one runs does nothing; otherwise the screen is
      covered and the midpoint is due after the fade-out, with nothing else changed. */
  lemma TransitionGuarded(s: SessionState, scene: GameScene, x: Position, mid: MidAction)
    ensures Transitioning(s) ==> Transitioned(s, scene, x, mid) == s
    ensures !Transitioning(s) ==>
              var t := Transitioned(s, scene, x, mid);
              && t.screen.covered && t.game == s.game && t.talk == s.talk
              && t.timers.fade == Some(Staged(Due(s.clock.now + FadeOutMs, s.timers.nextStamp), FadeMidpoint(scene, x, mid)))
              && t.timers.pending == s.timers.pending
  {
  }

  /** The midpoint: the scene and the position change together, the midpoint action
      runs, and the uncover is due after the hold; the transition is still running. */
  lemma FadeMidpointSwaps(s: SessionState, scene: GameScene, x: Position, mid: MidAction)
    requires s.timers.fade.Some? && s.timers.fade.value.stage == FadeMidpoint(scene, x, mid)
    ensures var t := FadeStepped(s);
      && t.game == s.game.(currentScene := scene, playerX := x)
      && t.timers.fade.Some? && t.timers.fade.value.stage == FadeUncover
      && t.timers.fade.value.due.at == s.clock.now + FadeHoldMs
      && t.screen == s.screen && t.talk == s.talk
      && (mid == NoMidAction ==> t.cues == s.cues && t.timers.pending == s.timers.pending)
      && (mid == ChantLater ==>
            && t.cues == s.cues
            && t.timers.pending == s.timers.pending + {Pending(Due(s.clock.now + ShortDelayMs, s.timers.nextStamp), ChantDrone)})
      && (mid == ChantThenTempleIntro ==>
            && t.cues == s.cues + [DroneStart(ChantingDrone)]
            && t.timers.pending == s.timers.pending + {Pending(Due(s.clock.now + ShortDelayMs, s.timers.nextStamp), OpenTempleIntro)})
  {
  }

  /** The uncover lifts the cover and sets the end after the fade-in. */
  lemma FadeUncoverLifts(s: SessionState)
    requires s.timers.fade.Some? && s.timers.fade.value.stage == FadeUncover
    ensures var t := FadeStepped(s);
      && t.game == s.game && !t.screen.covered
      && t.timers.fade.Some? && t.timers.fade.value.stage == FadeDone
      && t.timers.fade.value.due.at == s.clock.now + FadeInMs
  {
  }

  /** The end of a transition clears it and changes nothing else. */
  lemma FadeDoneEnds(s: SessionState)
    requires s.timers.fade.Some? && s.timers.fade.value.stage == FadeDone
    ensures FadeStepped(s) == s.(timers := s.timers.(fade := None))
  {
  }

  /** A transition runs to its end in three firings of its timer: the scene and the
      position change at the first, after the fade-out; the transition stays in flight
      through the hold and the fade-in; the midpoint action runs at the first firing
      and the later two neither play a cue nor set a timer. */
  lemma TransitionCompletes(s: SessionState, scene: GameScene, x: Position, mid: MidAction)
    requires !Transitioning(s)
    ensures var a := Fired(Transitioned(s, scene, x, mid), FadeStep);
      && a.game == s.game.(currentScene := scene, playerX := x) && Transitioning(a)
      && a.clock.now == s.clock.now + FadeOutMs
      && (mid == NoMidAction ==> a.cues == s.cues && a.timers.pending == s.timers.pending)
      && (mid == ChantLater ==>
            && a.cues == s.cues
            && a.timers.pending == s.timers.pending + {Pending(Due(a.clock.now + ShortDelayMs, s.timers.nextStamp + 1), ChantDrone)})
      && (mid == ChantThenTempleIntro ==>
            && a.cues == s.cues + [DroneStart(ChantingDrone)]
            && a.timers.pending == s.timers.pending + {Pending(Due(a.clock.now + ShortDelayMs, s.timers.nextStamp + 1), OpenTempleIntro)})
      && var b := Fired(a, FadeStep);
         && b.game == a.game && Transitioning(b) && !b.screen.covered
         && b.clock.now == s.clock.now + FadeOutMs + FadeHoldMs
         && var c := Fired(b, FadeStep);
            && !Transitioning(c) && c.game == a.game && c.talk == s.talk && c.cues == b.cues && b.cues == a.cues
            && c.timers.pending == b.timers.pending && b.timers.pending == a.timers.pending
            && c.clock.now == s.clock.now + FadeOutMs + FadeHoldMs + FadeInMs
  {
    var t := Transitioned(s, scene, x, mid);
    var r := Reached(t, DueOf(t, FadeStep));
    FadeMidpointSwaps(r, scene, x, mid);
    var a := Fired(t, FadeStep);
    var ra := Reached(a, DueOf(a, FadeStep));
    FadeUncoverLifts(ra);
    var b := Fired(a, FadeStep);
    FadeDoneEnds(Reached(b, DueOf(b, FadeStep)));
  }

  /** A running transition ends only at its own last stage: no other timer touches the
      transition slot, and its midpoint and uncover stages leave it in flight. */
  lemma FadeClearsOnlyAtEnd(s: SessionState, t: Timer)
    requires IsSet(s, t)
    ensures t != FadeStep ==> Fired(s, t).timers.fade == s.timers.fade
    ensures t == FadeStep && s.timers.fade.value.stage != FadeDone ==> Transitioning(Fired(s, t))
    ensures t == FadeStep && s.timers.fade.value.stage == FadeDone ==> !Transitioning(Fired(s, t))
  {
    if t.Queued? {
      var r := Reached(s, DueOf(s, t));
      RanKeepsFade(r.(timers := r.timers.(pending := r.timers.pending - {t.p})), t.p.event);
    }
  }

  lemma RanKeepsFade(s: SessionState, e: Event)
    ensures Ran(s, e).timers.fade == s.timers.fade
  {
  }

  /** While a transition runs, no input, frame or effect ends or replaces it: an
      acknowledgement (whose continuation may ask for another transition), an
      interaction, a frame, a key command and both effects leave its slot as it is. */
  lemma TransitionOutlastsHandlers(s: SessionState, target: Interactable, elapsed: nat, key: string)
    requires Transitioning(s)
    ensures Advanced(s).timers.fade == s.timers.fade
    ensures Interacted(s, target).timers.fade == s.timers.fade
    ensures Ticked(s, elapsed).timers.fade == s.timers.fade
    ensures Commanded(s, key).timers.fade == s.timers.fade
    ensures TriggersEvaluated(s).timers.fade == s.timers.fade
    ensures SubtitleRan(s).timers.fade == s.timers.fade
  {
  }

  // ------------------------------------------------------------------- frames

  /** A frame while the climax has begun, before the start, with the epilogue shown,
      a dialogue open, the player down or a transition running: the player stays where
      they are, walking stops, and only the clock advances. */
  lemma FrozenFrameStays(s: SessionState, elapsed: nat)
    requires Frozen(s)
    ensures var t := Ticked(s, elapsed);
      && t.game == s.game && !t.pose.isMoving && t.version == s.version
      && t.timers == s.timers && t.talk == s.talk && t.cues == s.cues && t.keys == s.keys
      && t.clock.now == s.clock.now + elapsed
  {
    assert Frozen(Framed(s, elapsed));
  }

  /** A walking frame, `elapsed` milliseconds after the previous: the player moves at
      the walking speed for the frame time (at most 50 ms), and not at all on the first
      frame; a single direction key moves exactly that far that way, clamped; holding
      both direction keys away from the barrier nets no move; at the temple barrier the
      player never moves left and the left key shows the block hint; a move keeps the
      walking flag on and plays a footstep exactly when none played in the last 400 ms. */
  lemma WalkingFrame(s: SessionState, elapsed: nat)
    requires !Frozen(s)
    ensures var t := Ticked(s, elapsed);
      && Abs(t.game.playerX - s.game.playerX) <= Speed * (MaxFrameMs as real)
      && (!s.clock.framed ==> t.game.playerX == s.game.playerX && !t.pose.isMoving)
      && (HoldsRight(s) && HoldsLeft(s) && !LeftBlocked(s.game.currentScene, s.game.playerX) ==>
            t.game.playerX == s.game.playerX && !t.pose.isMoving)
      && (LeftBlocked(s.game.currentScene, s.game.playerX) ==> t.game.playerX >= s.game.playerX)
      && (LeftBlocked(s.game.currentScene, s.game.playerX) && HoldsLeft(s) ==> BlockHintShown(t))
      && (t.game.playerX != s.game.playerX ==> t.pose.isMoving)
      && t.game.currentScene == s.game.currentScene && t.game.flags == s.game.flags && t.talk == s.talk
      && (s.clock.framed && HoldsRight(s) && (!HoldsLeft(s) || LeftBlocked(s.game.currentScene, s.game.playerX)) ==>
            t.game.playerX == ClampX(s.game.playerX + Speed * (FrameDelta(elapsed) as real)))
      && (s.clock.framed && HoldsLeft(s) && !HoldsRight(s) && !LeftBlocked(s.game.currentScene, s.game.playerX) ==>
            t.game.playerX == ClampX(s.game.playerX - Speed * (FrameDelta(elapsed) as real)))
      && var d := MoveDistance(HoldsRight(s), HoldsLeft(s), LeftBlocked(s.game.currentScene, s.game.playerX),
                               FrameTime(s, elapsed));
         && (t.pose.isMoving <==> d != 0.0)
         && (if d != 0.0 && (s.clock.lastFootstep.None? || s.clock.now + elapsed - s.clock.lastFootstep.value > FootstepGapMs)
             then t.cues == s.cues + [Footstep] && t.clock.lastFootstep == Some(s.clock.now + elapsed)
             else t.cues == s.cues && t.clock.lastFootstep == s.clock.lastFootstep)
  {
    assert !Frozen(Framed(s, elapsed));
    WalkedFrame(Framed(s, elapsed), FrameTime(s, elapsed));
  }

  /** The walking step of a frame, on the state whose clock the frame has advanced. */
  lemma WalkedFrame(s: SessionState, dt: nat)
    requires dt <= MaxFrameMs
    ensures var t := Walked(s, dt);
      && Abs(t.game.playerX - s.game.playerX) <= Speed * (MaxFrameMs as real)
      && (dt == 0 ==> t.game.playerX == s.game.playerX && !t.pose.isMoving)
      && (HoldsRight(s) && HoldsLeft(s) && !LeftBlocked(s.game.currentScene, s.game.playerX) ==>
            t.game.playerX == s.game.playerX && !t.pose.isMoving)
      && (LeftBlocked(s.game.currentScene, s.game.playerX) ==> t.game.playerX >= s.game.playerX)
      && (LeftBlocked(s.game.currentScene, s.game.playerX) && HoldsLeft(s) ==> BlockHintShown(t))
      && (t.game.playerX != s.game.playerX ==> t.pose.isMoving)
      && t.game.currentScene == s.game.currentScene && t.game.flags == s.game.flags && t.talk == s.talk
      && var d := MoveDistance(HoldsRight(s), HoldsLeft(s), LeftBlocked(s.game.currentScene, s.game.playerX), dt);
         && t.game.playerX == ClampX(s.game.playerX + d)
         && (t.pose.isMoving <==> d != 0.0)
         && (if d != 0.0 && (s.clock.lastFootstep.None? || s.clock.now - s.clock.lastFootstep.value > FootstepGapMs)
             then t.cues == s.cues + [Footstep] && t.clock.lastFootstep == Some(s.clock.now)
             else t.cues == s.cues && t.clock.lastFootstep == s.clock.lastFootstep)
  {
    var d := MoveDistance(HoldsRight(s), HoldsLeft(s), LeftBlocked(s.game.currentScene, s.game.playerX), dt);
    ClampMovesAtMost(s.game.playerX, d);
  }

  /** Clamping never moves a position further than the step itself. */
  lemma ClampMovesAtMost(x: Position, d: real)
    ensures Abs(ClampX(x + d) - x) <= Abs(d)
    ensures d >= 0.0 ==> ClampX(x + d) >= x
    ensures d == 0.0 ==> ClampX(x + d) == x
  {
  }

  /** The block hint is shown at most once at a time: while its timer is set another
      request does nothing; otherwise it is shown with a two-second timer. */
  lemma BlockHintOnce(s: SessionState)
    ensures BlockHintShown(s) ==> BlockHinted(s) == s
    ensures !BlockHintShown(s) ==>
              && BlockHinted(s).timers.blockHint == Some(Due(s.clock.now + BlockHintMs, s.timers.nextStamp))
              && BlockHinted(s).timers.pending == s.timers.pending && BlockHinted(s).game == s.game
  {
  }

  /** The block hint clears only when its own timer fires. */
  lemma BlockHintClearsOnlyWhenDue(s: SessionState, t: Timer)
    requires IsSet(s, t)
    ensures t == BlockHintEnd ==> !BlockHintShown(Fired(s, t))
    ensures t != BlockHintEnd ==> Fired(s, t).timers.blockHint == s.timers.blockHint
  {
    if t.Queued? {
      var r := Reached(s, DueOf(s, t));
      RanKeepsBlockHint(r.(timers := r.timers.(pending := r.timers.pending - {t.p})), t.p.event);
    }
  }

  lemma RanKeepsBlockHint(s: SessionState, e: Event)
    ensures Ran(s, e).timers.blockHint == s.timers.blockHint
  {
  }

  // ------------------------------------------------------------------ effects

  /** The trigger rules run once per game state: a second run does nothing; while a
      transition runs they fire nothing; the forest's end starts the transition to the
      meeting at 2, and the meeting spot opens the meeting script. */
  lemma TriggersRunOncePerState(s: SessionState)
    ensures TriggersEvaluated(TriggersEvaluated(s)) == TriggersEvaluated(s)
    ensures Transitioning(s) ==> TriggersEvaluated(s) == s.(seen := s.seen.(triggers := Some(s.version)))
    ensures s.seen.triggers != Some(s.version) && TriggerFor(s.game, Transitioning(s)) == EnterMeeting ==>
              TriggersEvaluated(s).timers.fade.Some?
              && TriggersEvaluated(s).timers.fade.value.stage == FadeMidpoint(Meeting, 2.0, NoMidAction)
    ensures s.seen.triggers != Some(s.version) && TriggerFor(s.game, Transitioning(s)) == MeetNineSong ==>
              TriggersEvaluated(s).talk.lines == Some(s.content.meeting)
              && TriggersEvaluated(s).talk.callback == MeetingThenSearch
    ensures TriggersEvaluated(s).game == s.game && TriggersEvaluated(s).version == s.version
  {
  }

  /** The subtitle selector shows a nearby subtitle that differs from the one shown,
      with its timer and, in the forest, the ghost whisper; otherwise it does nothing. */
  lemma SubtitleSelection(s: SessionState)
    ensures Replaces(ShownSubtitle(s), Nearby(s)) ==>
              var t := SubtitleSelected(s);
              && ShownSubtitle(t) == Nearby(s)
              && t.timers.caption.value.hideAt == Due(s.clock.now + SubtitleDuration(Nearby(s).value), s.timers.nextStamp)
              && t.cues == (if s.game.currentScene == Forest then s.cues + [GhostWhisper] else s.cues)
    ensures !Replaces(ShownSubtitle(s), Nearby(s)) ==> SubtitleSelected(s) == s
  {
  }

  /** The subtitle effect settles: run again on its own outcome it leaves the caption
      and the cues as they are, and a third run changes nothing. */
  lemma SubtitleSettles(s: SessionState)
    ensures var a := SubtitleRan(s);
      && SubtitleRan(a).timers.caption == a.timers.caption && SubtitleRan(a).cues == a.cues
      && SubtitleRan(SubtitleRan(a)) == SubtitleRan(a)
  {
    var a := SubtitleRan(s);
    if a != s {
      var a0 := s.(seen := s.seen.(subtitle := Some(SubtitleDepsOf(s))));
      assert Nearby(a) == Nearby(a0);
      if ShownSubtitle(a) != ShownSubtitle(s) {
        assert ShownSubtitle(a) == Nearby(a);
      }
    }
  }

  // -------------------------------------------------------------------- input

  /** Before the start and once the epilogue shows, key presses and the session's
      key commands change nothing. */
  lemma InactiveInputIgnored(s: SessionState, key: string)
    requires !InputActive(s)
    ensures Commanded(s, key) == s && KeyPressed(s, key) == s
  {
  }

  /** The vision key toggles vision mode and dismisses the vision tutorial. */
  lemma VisionKeyToggles(s: SessionState, key: string)
    requires InputActive(s) && (key == "f" || key == "F")
    ensures Commanded(s, key).pose.visionMode == !s.pose.visionMode
    ensures !Commanded(s, key).screen.showVisionTutorial
    ensures Commanded(s, key).game == s.game && Commanded(s, key).talk == s.talk
  {
  }

  // ------------------------------------------------------------------- timers

  /** Every timer set is one the event loop can run: when any is outstanding, one of
      them fires before all the others. */
  lemma NextTimerExists(s: SessionState)
    requires Outstanding(s) != {}
    ensures exists t :: Ready(s, t)
  {
    HasFirst(Outstanding(s));
    var d :| FirstIn(d, Outstanding(s));
    if p :| p in s.timers.pending && p.due == d {
      assert Ready(s, Queued(p));
    } else if s.timers.fade.Some? && s.timers.fade.value.due == d {
      assert Ready(s, FadeStep);
    } else if s.timers.blockHint.Some? && s.timers.blockHint.value == d {
      assert Ready(s, BlockHintEnd);
    } else {
      assert Ready(s, SubtitleEnd);
    }
  }

  /** All outstanding timers carry stamps below the next. */
  lemma OutstandingStampsFresh(s: SessionState)
    requires StampsFresh(s)
    ensures forall d :: d in Outstanding(s) ==> d.stamp < s.timers.nextStamp
  {
  }

  /** Timers due at the same time fire in the order they were set: a timer set now
      fires after every outstanding timer due no later than it. */
  lemma NewTimerFiresLast(s: SessionState, delay: nat, e: Event)
    requires Inv(s)
    ensures Outstanding(WithTimer(s, delay, e)) == Outstanding(s) + {Due(s.clock.now + delay, s.timers.nextStamp)}
    ensures forall d :: d in Outstanding(s) && d.at <= s.clock.now + delay ==>
              Before(d, Due(s.clock.now + delay, s.timers.nextStamp))
  {
    OutstandingStampsFresh(s);
    var t := WithTimer(s, delay, e);
    var q := Pending(Due(s.clock.now + delay, s.timers.nextStamp), e);
    assert (set p | p in t.timers.pending :: p.due) == (set p | p in s.timers.pending :: p.due) + {q.due};
  }
}
