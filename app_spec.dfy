/** The session controller's behaviour on values: the whole state of the App
    component as one record, and for each handler the record it leaves behind.
    The `Session` class in module App keeps the same state in fields and proves
    each of its methods against these functions; the lemmas at the end state what
    the handlers promise. */
module AppSpec {
  import opened Types
  import opened Content
  import opened Timers
  import opened Rules
  import opened DialogueBox

  const StandUpMs: nat := 3000
  /** The short pause before the intro script, the vision tutorial, the chant and the temple intro. */
  const ShortDelayMs: nat := 500
  const FadeOutMs: nat := 1200
  const FadeHoldMs: nat := 800
  const FadeInMs: nat := 1200
  const BlockHintMs: nat := 2000
  const ClimaxDelayMs: nat := 800
  const FallMs: nat := 1000
  const RiseMs: nat := 3000
  const SmashMs: nat := 800
  const BlackoutMs: nat := 2500
  const FootstepGapMs: nat := 400

  /** The session has no operation that ends the game; the epilogue is its end. */
  const GameEnded: bool := false

  function Max(a: nat, b: nat): nat {
    if a < b then b else a
  }

  /** The line at index `i` of a script, if there is one. */
  function LineAt(lines: seq<DialogueLine>, i: nat): (r: Option<DialogueLine>)
    ensures r.Some? <==> i < |lines|
    ensures r.Some? ==> r.value == lines[i]
  {
    if i < |lines| then Some(lines[i]) else None
  }

  /** The line shakes when it appears. */
  predicate Shakes(l: Option<DialogueLine>) {
    l.Some? && l.value.effect == Some(Shake)
  }

  /** The line has characters to reveal. */
  predicate HasText(l: Option<DialogueLine>) {
    l.Some? && |l.value.text| > 0
  }

  /** The box timers set when a line appears as box line `g`: the end of its shake
      when it shakes, then the first reveal step when it has text to reveal. */
  function LineTimers(now: nat, stamp: nat, g: nat, shakes: bool, steps: bool): (r: set<Pending>)
    ensures shakes <==> Pending(Due(now + ShakeMs, stamp), ShakeStop(g)) in r
    ensures steps <==> Pending(Due(now + StepMs, if shakes then stamp + 1 else stamp), TypeStep(g)) in r
    ensures forall p :: p in r ==> stamp <= p.due.stamp < stamp + 2
  {
    (if shakes then {Pending(Due(now + ShakeMs, stamp), ShakeStop(g))} else {})
    + (if steps then {Pending(Due(now + StepMs, if shakes then stamp + 1 else stamp), TypeStep(g))} else {})
  }

  /** The story flags a finished dialogue's continuation sets. */
  function ContinuationFlags(k: Continuation, f: Flags): (r: Flags)
    ensures FlagsLe(f, r)
    ensures r.seedPlanted == f.seedPlanted && r.enteredTemple == f.enteredTemple && AltarsDone(r) == AltarsDone(f)
    ensures r.hasMetNineSong == (f.hasMetNineSong || k == MeetingThenSearch)
    ensures r.hasSeed == (f.hasSeed || k == SetHasSeed)
    ensures r.flowerPlaced == f.flowerPlaced && r.incenseLit == f.incenseLit && r.wineDrunk == f.wineDrunk
  {
    match k
    case MeetingThenSearch => f.(hasMetNineSong := true)
    case SetHasSeed => f.(hasSeed := true)
    case _ => f
  }

  /** A dialogue an interaction opens, and what runs when it ends. */
  datatype Opening = Opening(script: ScriptId, after: Continuation)

  /** The dialogue an accepted interaction with an object of kind `k` opens. */
  function InteractionDialogue(k: Kind, f: Flags): (r: Option<Opening>)
    ensures r.None? <==> IsAltar(k) || (k == Seed && f.hasSeed) || (k == Pot && !(f.hasSeed && !f.seedPlanted))
    ensures r.Some? && r.value.after != NoCallback <==>
              (k == Seed && !f.hasSeed) || (k == Pot && f.hasSeed && !f.seedPlanted) || k == Door
  {
    match k
    case NineSong => Some(Opening(TempleRepeatScript, NoCallback))
    case Shadow => Some(Opening(ShadowsScript, NoCallback))
    case Seed => if !f.hasSeed then Some(Opening(FoundSeedScript, SetHasSeed)) else None
    case Pot => if f.hasSeed && !f.seedPlanted then Some(Opening(PlantedSeedScript, PlantedThenPath)) else None
    case Lily => Some(Opening(LilyScript, NoCallback))
    case Door => Some(Opening(BeforeTempleScript, DoorThenTemple))
    case _ => None
  }

  /** An accepted interaction sets the game state: the pot when the seed can be
      planted, and every altar. */
  predicate SetsState(k: Kind, f: Flags) {
    IsAltar(k) || (k == Pot && f.hasSeed && !f.seedPlanted)
  }

  /** The story flags after an accepted interaction with an object of kind `k`. */
  function InteractionFlags(k: Kind, f: Flags): (r: Flags)
    ensures FlagsLe(f, r)
    ensures IsAltar(k) ==> AltarFlag(k, r) == Some(true)
    ensures k == Pot && f.hasSeed ==> r.seedPlanted
    ensures !SetsState(k, f) ==> r == f
  {
    if IsAltar(k) then WithAltar(k, f)
    else if k == Pot && f.hasSeed && !f.seedPlanted then f.(seedPlanted := true)
    else f
  }

  /** The altar interaction that completes the ritual, outside the climax, sets the climax timer. */
  predicate ArmsClimax(k: Kind, s: GameState) {
    IsAltar(k) && AltarsDone(WithAltar(k, s.flags)) && !GameEnded && s.currentScene != Climax
  }

  // ------------------------------------------------------------------ state

  /** The player's facing direction: 1 is right, -1 left. */
  type Facing = d: int | d == 1 || d == -1 witness 1

  /** 0: normal, 1: the shadow has emerged, 2: the vines have struck. */
  type ClimaxStep = n: nat | n <= 2

  /** The dialogue controls: the open dialogue's lines, if any, and the index of its
      current line; whether its line is still being typed; whether force-show is on;
      and the action stored for the dialogue's end. */
  datatype Talk = Talk(lines: Option<seq<DialogueLine>>, index: nat, typing: bool, forceShow: bool,
                       callback: Continuation)

  /** The overlays: the movement and vision tutorials, the epilogue, and the black
      cover used by transitions and the blackout. */
  datatype Screen = Screen(showTutorial: bool, showVisionTutorial: bool, showEpilogue: bool, covered: bool)

  /** The player's pose and the climax sequence's visual state. */
  datatype Pose = Pose(isMoving: bool, lyingDown: bool, facingDir: Facing, visionMode: bool,
                       screenShake: bool, climaxStep: ClimaxStep)

  /** The frame clock: the session time in milliseconds, whether a frame has run
      (so that the next measures its time from it), and the last footstep's time. */
  datatype Clock = Clock(now: nat, framed: bool, lastFootstep: Option<nat>)

  /** The subtitle shown and the due time of the timer that hides it. */
  datatype Caption = Caption(subtitle: Subtitle, hideAt: Due)

  /** The timers. Three live in single slots: the end of the block hint (set
      exactly while the hint is shown) and the subtitle's, as the session keeps one
      handle to each, and the next stage of a running transition, which keeps no
      handle but of which there is one exactly while a transition runs, since a
      transition is refused while another runs. `pending` holds every other timer and `nextStamp`
      is the stamp the next timer set gets. */
  datatype Schedule = Schedule(fade: Option<Staged>, blockHint: Option<Due>, caption: Option<Caption>,
                               pending: set<Pending>, nextStamp: nat)

  /** What the subtitle selector last ran on: the player's position, the scene and
      the subtitle then shown. */
  datatype SubtitleDeps = SubtitleDeps(x: real, scene: GameScene, shown: Option<Subtitle>)

  /** What the two effects last ran on: the trigger rules a game state version, the
      subtitle selector its dependencies. */
  datatype Seen = Seen(triggers: Option<nat>, subtitle: Option<SubtitleDeps>)

  /** The state of one session. `version` is bumped by every game state update, as
      every update makes a new state object; `cues` is the log of audio cues played;
      `keys` is the held-key set and `box` the dialogue box. */
  datatype SessionState = SessionState(
    content: Provider, hasStarted: bool, game: GameState, version: nat,
    talk: Talk, screen: Screen, pose: Pose, clock: Clock, cues: seq<Cue>,
    timers: Schedule, seen: Seen, keys: set<string>, box: BoxView)

  const NoTalk := Talk(None, 0, false, false, NoCallback)

  function Initial(c: Provider): SessionState {
    SessionState(c, false, InitialState, 0, NoTalk, Screen(false, false, false, false),
                 Pose(false, false, 1, false, false, 0), Clock(0, false, None), [],
                 Schedule(None, None, None, {}, 0), Seen(None, None), {}, EmptyBox)
  }

  // ------------------------------------------------------------- derived values

  function Lines(s: SessionState): seq<DialogueLine> {
    if s.talk.lines.Some? then s.talk.lines.value else []
  }

  /** The line the dialogue box is given: the current line of the open dialogue. */
  function CurrentLine(s: SessionState): Option<DialogueLine> {
    if s.talk.lines.Some? then LineAt(Lines(s), s.talk.index) else None
  }

  /** The current line is the dialogue's last. */
  predicate IsEnd(s: SessionState) {
    s.talk.lines.Some? && s.talk.index == |Lines(s)| - 1
  }

  predicate Transitioning(s: SessionState) {
    s.timers.fade.Some?
  }

  predicate BlockHintShown(s: SessionState) {
    s.timers.blockHint.Some?
  }

  function ShownSubtitle(s: SessionState): Option<Subtitle> {
    if s.timers.caption.Some? then Some(s.timers.caption.value.subtitle) else None
  }

  /** Keys and commands are accepted. */
  predicate InputActive(s: SessionState) {
    s.hasStarted && !GameEnded && !s.screen.showEpilogue
  }

  /** The conditions under which a frame does not move the player. */
  predicate Frozen(s: SessionState) {
    || s.pose.climaxStep > 0 || !s.hasStarted || GameEnded || s.screen.showEpilogue
    || s.talk.lines.Some? || s.pose.lyingDown || Transitioning(s)
  }

  /** An interaction with `target` is dropped without any effect. */
  predicate Ignores(s: SessionState, target: Interactable) {
    target.completed == Some(true) || Transitioning(s) || GameEnded || (target.kind == Seed && !s.pose.visionMode)
  }

  /** The due times of every timer set and not yet run. */
  function Outstanding(s: SessionState): set<Due> {
    (set p | p in s.timers.pending :: p.due)
    + (if s.timers.fade.Some? then {s.timers.fade.value.due} else {})
    + (if s.timers.blockHint.Some? then {s.timers.blockHint.value} else {})
    + (if s.timers.caption.Some? then {s.timers.caption.value.hideAt} else {})
  }

  /** A timer the event loop can run: one of the queue, or one of the three slots. */
  datatype Timer = Queued(p: Pending) | FadeStep | BlockHintEnd | SubtitleEnd

  predicate IsSet(s: SessionState, t: Timer) {
    match t
    case Queued(p) => p in s.timers.pending
    case FadeStep => s.timers.fade.Some?
    case BlockHintEnd => s.timers.blockHint.Some?
    case SubtitleEnd => s.timers.caption.Some?
  }

  function DueOf(s: SessionState, t: Timer): Due
    requires IsSet(s, t)
  {
    match t
    case Queued(p) => p.due
    case FadeStep => s.timers.fade.value.due
    case BlockHintEnd => s.timers.blockHint.value
    case SubtitleEnd => s.timers.caption.value.hideAt
  }

  /** The timer `t` is set and fires before every other: the one the event loop runs next. */
  ghost predicate Ready(s: SessionState, t: Timer) {
    IsSet(s, t) && FirstIn(DueOf(s, t), Outstanding(s))
  }

  // ---------------------------------------------------------------- invariant

  /** The dialogue box shows the open dialogue's current line, and the typing flag
      agrees with the box while a line is shown and is off once force-show is on. */
  predicate DialogueSynced(s: SessionState) {
    && (s.talk.lines.Some? && |Lines(s)| > 0 ==> s.talk.index < |Lines(s)|)
    && s.box.line == CurrentLine(s)
    && (s.talk.lines.None? ==> !s.talk.typing)
    && (s.box.line.Some? ==> (s.talk.typing <==> IsTyping(s.box)))
    && (s.box.line.Some? && s.talk.forceShow ==> !s.talk.typing)
  }

  /** Every timer set carries a stamp below the next one. */
  predicate StampsFresh(s: SessionState) {
    && (forall p :: p in s.timers.pending ==> p.due.stamp < s.timers.nextStamp)
    && (s.timers.fade.Some? ==> s.timers.fade.value.due.stamp < s.timers.nextStamp)
    && (s.timers.blockHint.Some? ==> s.timers.blockHint.value.stamp < s.timers.nextStamp)
    && (s.timers.caption.Some? ==> s.timers.caption.value.hideAt.stamp < s.timers.nextStamp)
  }

  predicate Inv(s: SessionState) {
    Revealed(s.box) && DialogueSynced(s) && StampsFresh(s)
  }

  // ------------------------------------------------------------ state updates

  /** A timer set now for `delay` milliseconds. */
  function WithTimer(s: SessionState, delay: nat, e: Event): SessionState {
    s.(timers := s.timers.(pending := s.timers.pending + {Pending(Due(s.clock.now + delay, s.timers.nextStamp), e)},
                           nextStamp := s.timers.nextStamp + 1))
  }

  /** A game state update. */
  function WithGameState(s: SessionState, g: GameState): SessionState {
    s.(game := g, version := s.version + 1)
  }

  function Played(s: SessionState, c: seq<Cue>): SessionState {
    s.(cues := s.cues + c)
  }

  /** The current line handed to the dialogue box; a line without text is reported
      complete at once. */
  function Presented(s: SessionState): SessionState {
    var l := CurrentLine(s);
    s.(box := Shown(s.box, l), talk := s.talk.(typing := if l.Some? && !HasText(l) then false else s.talk.typing))
  }

  /** The box's timers for the line it was just given. */
  function TimersArmed(s: SessionState): SessionState {
    s.(timers := s.timers.(pending := s.timers.pending + LineTimers(s.clock.now, s.timers.nextStamp, s.box.generation,
                                                                    Shakes(s.box.line), HasText(s.box.line)),
                           nextStamp := s.timers.nextStamp + 2))
  }

  function LineShown(s: SessionState): SessionState {
    TimersArmed(Presented(s))
  }

  /** A dialogue opened: held keys are dropped, walking stops, `lines` become the
      open dialogue at its first line, and `k` replaces any stored continuation
      without running it. */
  function DialogueStarted(s: SessionState, lines: seq<DialogueLine>, k: Continuation): SessionState {
    LineShown(s.(keys := {}, pose := s.pose.(isMoving := false), talk := Talk(Some(lines), 0, true, false, k)))
  }

  /** Force-show set on a line still typing: the box completes it and reports it complete. */
  function Skipped(s: SessionState): SessionState {
    s.(talk := s.talk.(forceShow := true, typing := if IsTyping(s.box) then false else s.talk.typing),
       box := Forced(s.box, true))
  }

  /** The next line of the open dialogue shown. */
  function MovedOn(s: SessionState): SessionState {
    LineShown(s.(talk := s.talk.(index := s.talk.index + 1, typing := true, forceShow := false)))
  }

  /** The open dialogue closed and its stored continuation cleared. */
  function Closed(s: SessionState): SessionState {
    Presented(s.(talk := s.talk.(lines := None, typing := false, callback := NoCallback)))
  }

  /** A transition to `scene` at `x` requested: unless one is running, the screen
      is covered and the midpoint is due after the fade-out. */
  function Transitioned(s: SessionState, scene: GameScene, x: Position, mid: MidAction): SessionState {
    if Transitioning(s) then s
    else s.(screen := s.screen.(covered := true),
            timers := s.timers.(fade := Some(Staged(Due(s.clock.now + FadeOutMs, s.timers.nextStamp), FadeMidpoint(scene, x, mid))),
                                nextStamp := s.timers.nextStamp + 1))
  }

  /** The continuation `k` of a finished dialogue run. */
  function Resumed(s: SessionState, k: Continuation): SessionState {
    match k
    case NoCallback => s
    case MeetingThenSearch =>
      WithTimer(WithGameState(s, s.game.(currentScene := Search, flags := ContinuationFlags(k, s.game.flags))),
                ShortDelayMs, ShowVisionTutorial)
    case SetHasSeed => WithGameState(s, s.game.(flags := ContinuationFlags(k, s.game.flags)))
    case PlantedThenPath => Transitioned(Played(s, [DroneStop]), Path, 5.0, ChantLater)
    case DoorThenTemple => Transitioned(s, Temple, 15.0, ChantThenTempleIntro)
    case ClimaxSmash => WithTimer(Played(s, [Scare]).(pose := s.pose.(climaxStep := 2, screenShake := true)), SmashMs, Blackout)
  }

  /** After the last line: the dialogue closes, then its continuation runs. */
  function Finished(s: SessionState): SessionState {
    Resumed(Closed(s), s.talk.callback)
  }

  /** The dialogue acknowledged (a click on the box, Space or Enter): nothing
      happens without a dialogue; a line still typing is completed at once;
      otherwise the next line is shown, or after the last the dialogue finishes. */
  function Advanced(s: SessionState): SessionState {
    if s.talk.lines.None? then s
    else if s.talk.typing then Skipped(s)
    else if s.talk.index + 1 < |Lines(s)| then MovedOn(s)
    else Finished(s)
  }

  /** The block hint requested: unless its timer is set, it is shown and its timer set. */
  function BlockHinted(s: SessionState): SessionState {
    if BlockHintShown(s) then s
    else s.(timers := s.timers.(blockHint := Some(Due(s.clock.now + BlockHintMs, s.timers.nextStamp)),
                                nextStamp := s.timers.nextStamp + 1))
  }

  /** The climax started, unless it has: the drone stops, the scare plays, the scene
      becomes the climax, the player falls and the screen shakes. */
  function ClimaxTriggered(s: SessionState): SessionState {
    if s.game.currentScene == Climax then s
    else
      var a := WithGameState(Played(s, [DroneStop, Scare]), s.game.(currentScene := Climax));
      WithTimer(a.(pose := a.pose.(lyingDown := true, screenShake := true)), FallMs, ShadowEmerges)
  }

  /** An accepted interaction's dialogue, if it opens one. */
  function InteractionOpened(s: SessionState, k: Kind): SessionState {
    match InteractionDialogue(k, s.game.flags)
    case Some(o) => DialogueStarted(s, Script(s.content, o.script), o.after)
    case None => s
  }

  /** An interaction with `target`: an ignored one changes nothing; an accepted one
      plays the chime, opens the object's dialogue, sets the climax timer for the
      altar that completes the ritual, and records the flags it sets. */
  function Interacted(s: SessionState, target: Interactable): SessionState {
    if Ignores(s, target) then s
    else
      var k := target.kind;
      var b := InteractionOpened(Played(s, [InteractChime]), k);
      var c := if ArmsClimax(k, s.game) then WithTimer(b, ClimaxDelayMs, ClimaxDue) else b;
      if SetsState(k, s.game.flags) then WithGameState(c, c.game.(flags := InteractionFlags(k, s.game.flags))) else c
  }

  // ---------------------------------------------------------------- frames

  predicate HoldsRight(s: SessionState) {
    "ArrowRight" in s.keys || "d" in s.keys
  }

  predicate HoldsLeft(s: SessionState) {
    "ArrowLeft" in s.keys || "a" in s.keys
  }

  /** The facing and the hints of a frame: the right key turns the player right and
      hides the tutorial; the left key turns the player left, except against the
      temple's barrier, where it shows the block hint instead. */
  function Steered(s: SessionState): SessionState {
    var a := if HoldsRight(s) then s.(screen := s.screen.(showTutorial := false), pose := s.pose.(facingDir := 1)) else s;
    if !HoldsLeft(s) then a
    else if LeftBlocked(s.game.currentScene, s.game.playerX) then BlockHinted(a)
    else a.(pose := a.pose.(facingDir := -1))
  }

  /** The move of a frame by `d`: a zero move stops the walking flag; any other
      updates the position, keeps the walking flag on and plays a footstep unless
      one played in the last 400 ms. */
  function Moved(s: SessionState, d: real): SessionState {
    if d == 0.0 then s.(pose := s.pose.(isMoving := false))
    else
      var c := WithGameState(s, s.game.(playerX := ClampX(s.game.playerX + d))).(pose := s.pose.(isMoving := true));
      if c.clock.lastFootstep.None? || c.clock.now - c.clock.lastFootstep.value > FootstepGapMs as int
      then Played(c, [Footstep]).(clock := c.clock.(lastFootstep := Some(c.clock.now)))
      else c
  }

  /** A frame that may move the player, `dt` milliseconds after the previous one. */
  function Walked(s: SessionState, dt: nat): SessionState
    requires dt <= MaxFrameMs
  {
    var d := MoveDistance(HoldsRight(s), HoldsLeft(s), LeftBlocked(s.game.currentScene, s.game.playerX), dt);
    Moved(Steered(s), d)
  }

  /** A frame, `elapsed` milliseconds after the previous one. The first frame
      measures no time; a frozen frame only stops the walking flag. */
  function Ticked(s: SessionState, elapsed: nat): SessionState {
    var t := Framed(s, elapsed);
    if Frozen(t) then Halted(t) else Walked(t, FrameTime(s, elapsed))
  }

  /** The time a frame `elapsed` milliseconds after the previous one moves by: none
      on the first frame, and never more than the cap. */
  function FrameTime(s: SessionState, elapsed: nat): (dt: nat)
    ensures dt <= MaxFrameMs
  {
    if s.clock.framed then FrameDelta(elapsed) else 0
  }

  /** The clock of a frame: frames have begun and the time has advanced. */
  function Framed(s: SessionState, elapsed: nat): SessionState {
    s.(clock := s.clock.(framed := true, now := s.clock.now + elapsed))
  }

  /** A frame that does not move the player stops the walking flag. */
  function Halted(s: SessionState): SessionState {
    s.(pose := s.pose.(isMoving := false))
  }

  // ------------------------------------------------------------ input events

  /** The start screen clicked: the forest drone plays, the tutorial shows, the
      scene becomes the forest with the player lying down, and standing up is due. */
  function Started(s: SessionState): SessionState {
    var a := WithGameState(Played(s, [DroneStart(ForestDrone)]), s.game.(currentScene := Forest));
    WithTimer(a.(hasStarted := true, screen := a.screen.(showTutorial := true), pose := a.pose.(lyingDown := true)),
              StandUpMs, StandUp)
  }

  /** A key press, as the held-key tracker records it. */
  function KeyPressed(s: SessionState, key: string): SessionState {
    if InputActive(s) then s.(keys := s.keys + {key}) else s
  }

  /** A key release, recorded whether or not input is active; so is a touch button released. */
  function KeyReleased(s: SessionState, key: string): SessionState {
    s.(keys := s.keys - {key})
  }

  /** A touch button held: its key, whether or not input is active. */
  function TouchPressed(s: SessionState, key: string): SessionState {
    s.(keys := s.keys + {key})
  }

  /** The vision key: vision mode toggles and the vision tutorial is dismissed. */
  function VisionToggled(s: SessionState): SessionState {
    s.(pose := s.pose.(visionMode := !s.pose.visionMode), screen := s.screen.(showVisionTutorial := false))
  }

  /** The vision touch button toggles vision mode only. */
  function VisionTouched(s: SessionState): SessionState {
    s.(pose := s.pose.(visionMode := !s.pose.visionMode))
  }

  /** The interaction target of Space or Enter: the first object in reach. */
  function InReach(s: SessionState): Option<Interactable> {
    Resolve(Interactables(s.game.currentScene, s.game.flags), s.game.playerX)
  }

  /** Space or Enter: the open dialogue advances; otherwise, unless the player is
      down or the climax has begun, the first object in reach is interacted with. */
  function InteractPressed(s: SessionState): SessionState {
    if s.talk.lines.Some? then Advanced(s)
    else if !s.pose.lyingDown && s.pose.climaxStep == 0 && InReach(s).Some? then Interacted(s, InReach(s).value)
    else s
  }

  /** The session's own key listener. */
  function Commanded(s: SessionState, key: string): SessionState {
    if !InputActive(s) then s
    else if key == "f" || key == "F" then VisionToggled(s)
    else if key == " " || key == "Enter" then InteractPressed(s)
    else s
  }

  // ----------------------------------------------------------------- effects

  /** The scene trigger rules, run once per game state version: the forest's end
      leads to the meeting, and the meeting spot opens the meeting script. */
  function TriggersEvaluated(s: SessionState): SessionState {
    if s.seen.triggers == Some(s.version) then s
    else
      var t := s.(seen := s.seen.(triggers := Some(s.version)));
      match TriggerFor(s.game, Transitioning(s))
      case NoTrigger => t
      case EnterMeeting => Transitioned(t, Meeting, 2.0, NoMidAction)
      case MeetNineSong => DialogueStarted(t, s.content.meeting, MeetingThenSearch)
  }

  /** The subtitle the selector picks: the first of the scene near the player. */
  function Nearby(s: SessionState): Option<Subtitle> {
    NearbySubtitle(SceneSubtitles(s.content, s.game.currentScene), s.game.playerX)
  }

  /** The subtitle selector: a nearby subtitle that differs from the one shown is
      shown with a new timer replacing the old, with the ghost whisper in the forest. */
  function SubtitleSelected(s: SessionState): SessionState {
    var n := Nearby(s);
    if Replaces(ShownSubtitle(s), n) then
      var t := if s.game.currentScene == Forest then Played(s, [GhostWhisper]) else s;
      t.(timers := t.timers.(caption := Some(Caption(n.value, Due(s.clock.now + SubtitleDuration(n.value), s.timers.nextStamp))),
                             nextStamp := s.timers.nextStamp + 1))
    else s
  }

  function SubtitleDepsOf(s: SessionState): SubtitleDeps {
    SubtitleDeps(s.game.playerX, s.game.currentScene, ShownSubtitle(s))
  }

  /** The subtitle effect: the selector runs when the position, the scene or the
      subtitle shown has changed since it last ran. */
  function SubtitleRan(s: SessionState): SessionState {
    if s.seen.subtitle == Some(SubtitleDepsOf(s)) then s
    else SubtitleSelected(s.(seen := s.seen.(subtitle := Some(SubtitleDepsOf(s)))))
  }

  // ------------------------------------------------------------------ timers

  /** What runs at a transition's midpoint, right after the scene is swapped. */
  function MidActed(s: SessionState, m: MidAction): SessionState {
    match m
    case NoMidAction => s
    case ChantLater => WithTimer(s, ShortDelayMs, ChantDrone)
    case ChantThenTempleIntro => WithTimer(Played(s, [DroneStart(ChantingDrone)]), ShortDelayMs, OpenTempleIntro)
  }

  /** The next stage `stage` of a transition set `delay` milliseconds from now. */
  function Staging(s: SessionState, delay: nat, stage: FadeStage): SessionState {
    s.(timers := s.timers.(fade := Some(Staged(Due(s.clock.now + delay, s.timers.nextStamp), stage)),
                           nextStamp := s.timers.nextStamp + 1))
  }

  /** The running transition's next stage: at the midpoint the scene and position
      change together and the midpoint action runs, then the cover lifts, and
      finally the transition ends. */
  function FadeStepped(s: SessionState): SessionState
    requires s.timers.fade.Some?
  {
    match s.timers.fade.value.stage
    case FadeMidpoint(scene, x, mid) =>
      Staging(MidActed(WithGameState(s, s.game.(currentScene := scene, playerX := x)), mid), FadeHoldMs, FadeUncover)
    case FadeUncover => Staging(s.(screen := s.screen.(covered := false)), FadeInMs, FadeDone)
    case FadeDone => s.(timers := s.timers.(fade := None))
  }

  /** A reveal step of box line `g`: the next character appears, with a typing sound
      on every third; then typing is reported complete or the next step is set. */
  function TypeStepped(s: SessionState, g: nat): SessionState {
    if g == s.box.generation && StepDue(s.box, s.talk.forceShow) then
      var b := Stepped(s.box, g, s.talk.forceShow);
      var t := (if s.box.charIndex % 3 == 0 then Played(s, [TypeSound]) else s).(box := b);
      if FullyShown(b) then t.(talk := t.talk.(typing := false)) else WithTimer(t, StepMs, TypeStep(g))
    else s
  }

  /** The callback of a queued timer. */
  function Ran(s: SessionState, e: Event): SessionState {
    match e
    case StandUp => WithTimer(s.(pose := s.pose.(lyingDown := false)), ShortDelayMs, OpenIntro)
    case OpenIntro => DialogueStarted(s, s.content.intro, NoCallback)
    case ChantDrone => Played(s, [DroneStart(ChantingDrone)])
    case OpenTempleIntro => DialogueStarted(s, s.content.templeIntro, NoCallback)
    case ShowVisionTutorial => s.(screen := s.screen.(showVisionTutorial := true))
    case ClimaxDue => ClimaxTriggered(s)
    case ShadowEmerges => WithTimer(Played(s, [DroneStart(ForestDrone)]).(pose := s.pose.(climaxStep := 1)), RiseMs, OpenClimaxDialogue)
    case OpenClimaxDialogue => DialogueStarted(s, s.content.climax, ClimaxSmash)
    case Blackout => WithTimer(s.(screen := s.screen.(covered := true), pose := s.pose.(screenShake := false)), BlackoutMs, ShowEpilogue)
    case ShowEpilogue => s.(screen := s.screen.(showEpilogue := true, covered := false))
    case TypeStep(g) => TypeStepped(s, g)
    case ShakeStop(g) => s.(box := ShakeStopped(s.box, g))
  }

  /** The clock moved up to `d`, the due time of the timer firing. */
  function Reached(s: SessionState, d: Due): SessionState {
    s.(clock := s.clock.(now := Max(s.clock.now, d.at)))
  }

  /** The timer `t` fires: it is removed, the clock moves up to its due time and its
      callback runs. */
  function Fired(s: SessionState, t: Timer): SessionState
    requires IsSet(s, t)
  {
    var r := Reached(s, DueOf(s, t));
    match t
    case Queued(p) => Ran(r.(timers := r.timers.(pending := r.timers.pending - {p})), p.event)
    case FadeStep => FadeStepped(r)
    case BlockHintEnd => r.(timers := r.timers.(blockHint := None))
    case SubtitleEnd => r.(timers := r.timers.(caption := None))
  }
}
