# A verified model of the narrative state machine of "Twjie Town Nightmare"

The game is a side-scrolling horror story in eight scenes (intro, forest,
meeting, search, path, temple, climax, ending). Its core is the App component.
That component owns:

- the session state: the scene, the player's position on a 0–100 axis, seven
  story flags that only become true, vision mode, the player lying down, the
  scene transition in flight, the climax step and the epilogue;
- the open dialogue, with its line index, its typing and force-show flags and
  the one stored continuation that runs when the dialogue ends.

Frames move the player. Key presses open dialogues, advance them and interact
with the scene's objects. Timers chain the scene transitions, the block hint,
the subtitles and the timed climax sequence. A dialogue box reveals each line
one character per 50 ms. A held-key set records the direction keys.

The project models these as follows:

- `types.dfy` (module `Types`) holds the data model: scenes, lines, subtitles,
  interactables, the seven flags and the game state.
- `level_data.dfy` (module `LevelData`) holds the per-scene catalog of
  interactables, in catalog order.
- `content.dfy` (module `Content`) holds the story text. It is data the model
  receives: the dialogue scripts by name, and the subtitles by scene.
- `rules.dfy` (module `Rules`) holds the pure rules:
  - frame-time cap, walking speed (43/5000 units per ms), clamping and the
    temple barrier;
  - the completion projection over the catalog;
  - the first-in-reach resolver;
  - the ordered objective hint;
  - the scene trigger rules;
  - the subtitle selector and the subtitle duration.
- `game_input.dfy` (module `GameInput`) holds class `HeldKeys`, the mutable
  key set.
- `dialogue_box.dfy` (module `DialogueBox`) holds class `Typewriter`, the
  line reveal state machine. Its value view is `BoxView`, with the functions
  that specify each step.
- `timers.dfy` (module `Timers`) makes deferred work explicit:
  - audio cues;
  - continuation tags;
  - mid-transition actions;
  - due times ordered by (time, order set);
  - the pending events.
- `app_spec.dfy` (module `AppSpec`) holds the whole session state as one record
  (`SessionState`). It has one function per handler, giving the state that
  handler leaves behind, and the invariant `Inv`.
- `app.dfy` (module `App`) holds class `Session`. It keeps the same state in
  fields and owns a `HeldKeys` and a `Typewriter`. Each method is proved to
  leave `Snapshot()` equal to the corresponding `AppSpec` function of the old
  snapshot. The handlers the browser calls also keep `Valid()`.
- `app_props.dfy` (module `AppProps`) proves that every handler keeps the
  invariant and moves the session forward. Flags are never unset; the clock,
  the timer order stamps and the game state version never go back; the cue log
  only grows.
- `app_laws.dfy` (module `AppLaws`) states what each handler promises.

Time is the session clock in milliseconds:

- A frame advances the clock by the time elapsed since the previous frame.
- Every `setTimeout` becomes a pending entry with an absolute due time and an
  order stamp.
- `Session.Fire(t)` runs the timer `t` that fires first (`Ready`), after
  moving the clock up to its due time. Timers due together fire in the order
  they were set.
- The block hint timer and the subtitle timer each live in their own slot,
  because the component keeps one handle to each. The transition's next stage
  lives in a third slot: the component keeps no handle to its timers, but its
  "transitioning" flag refuses a second transition while one runs, so at most
  one stage is ever pending. The transition is "in flight" exactly while its
  slot is set. The block
  message is shown exactly while its timer is set.
- The dialogue box's timers carry the number of the line they were set for.
  A timer of an earlier line does nothing, which is what the component's
  effect clean-up achieves by clearing it.
- Stored callbacks are continuation tags. The three chained timer callbacks
  of a transition are its stages.
- The two effects that run after a render (the trigger rules and the subtitle
  selector) are methods the environment calls. Each of them records what it
  last ran on, so a second run on the same inputs does nothing, as with React's
  dependency lists.

## Model

Each `Session` method is proved to leave `Snapshot()` equal to an `AppSpec`
function of the old snapshot. The `AppProps` and `AppLaws` lemmas about that
function state what the handler does. The method rows below therefore name the
function and the lemmas that carry the handler's properties.

| member | source | states |
|---|---|---|
| `Types.AltarFlag` | App.tsx:124-128 | each altar kind reports exactly its own flag (flower placed, incense lit, wine drunk); every other kind reports nothing |
| `Types.WithAltar` | App.tsx:288-294 | an altar rite sets its own flag, leaves the other altar flags and the four story flags as they were, and unsets nothing |
| `LevelData.CatalogScenes` | assets/levelData.ts:4-25 | exactly search, path, temple and climax have catalog entries, and no entry carries a completion mark or a required item |
| `LevelData.ClimaxCatalogIsTempleWithoutShadow` | assets/levelData.ts:13-25 | the climax catalog holds exactly the temple entries other than the shadow |
| `LevelData.AltarsSpacedApart` | assets/levelData.ts:13-25 | two altars of one scene are at least 20 units apart, so no point is within reach of both |
| `Rules.FrameDelta` | App.tsx:317-318 | a frame accounts for the elapsed time, but for at most 50 ms |
| `Rules.ClampX` | App.tsx:367 | a coordinate inside [0, 100] is kept; one below is 0, one above is 100 |
| `Rules.MoveDistance` | App.tsx:343-363 | a held right key moves exactly walking speed times the frame time to the right; a held left key moves that far to the left unless blocked; both keys cancel; no key, or a blocked left key alone, moves nothing; a step never exceeds 50 ms of walking |
| `Rules.Interactables` | App.tsx:120-130 | the scene's catalog in order, each entry keeping its id, position, label and kind; an altar's completion is its flag and every other entry keeps the catalog's |
| `Rules.CompletedMeansAltarFlag` | App.tsx:124-128 | an entry counts as completed exactly when it is an altar whose flag is set |
| `Rules.Resolve` | App.tsx:415-418 | the target is the first entry, by catalog order, less than 10 units away; there is none exactly when no entry is that close |
| `Rules.SearchResolution` | assets/levelData.ts:5-8 | in the search scene the seed is picked between 55 and 75 (also where the pot is in reach), the pot from 75 to 85, and nothing elsewhere |
| `Rules.TempleResolution` | assets/levelData.ts:13-19 | the temple's resolution table: the shadow up to 5, the guide from there to 25 (over the shadow and the first altar), each altar on its own interval, nothing at 40, at 60 or from 80 on |
| `Rules.Objective` | App.tsx:103-117 | the first hint exactly in the intro or the forest's first 20 units; each later hint holds only under its rule's conditions and the failure of every earlier rule |
| `Rules.TempleRitesAdvanceHint` | App.tsx:110-115 | in the temple once the seed is planted, the hint is a ritual step, "complete" exactly when all three rites are done; performing the rite the hint names moves it strictly further along flower, incense, wine, complete, and performing any other rite leaves it unchanged |
| `Rules.TriggerFor` | App.tsx:428-446 | nothing fires during a transition; the meeting transition fires exactly beyond 98 in the forest; the meeting dialogue fires exactly beyond 60 in the meeting scene before the meeting flag is set |
| `Rules.MeetingRuleFiresOnce` | App.tsx:440-444 | once the meeting flag is set, the meeting rule never fires again, whatever happens later |
| `Rules.NearbySubtitle` | App.tsx:450-453 | the selected subtitle is the scene's first one less than 8 units away, and there is none exactly when none is that close |
| `Rules.SubtitleDuration` | App.tsx:463 | a subtitle stays up for its own duration when that is given and non-zero; otherwise for the larger of 3 s and 200 ms per character; never for zero |
| `GameInput.HeldKeys.constructor` | hooks/useGameInput.ts:4-5 | no key is held at first |
| `GameInput.HeldKeys.KeyDown` | hooks/useGameInput.ts:7-10 | a key press adds its key only while input is active, and leaves the set alone otherwise |
| `GameInput.HeldKeys.KeyUp` | hooks/useGameInput.ts:12-14 | a key release removes its key whether input is active or not |
| `GameInput.HeldKeys.AddKey` | hooks/useGameInput.ts:17-19 | a touch press adds its key and changes no other |
| `GameInput.HeldKeys.RemoveKey` | hooks/useGameInput.ts:21-23 | a touch release removes its key and changes no other |
| `GameInput.HeldKeys.Clear` | App.tsx:160 | a dialogue start empties the held-key set |
| `DialogueBox.Typewriter.constructor` | components/DialogueBox.tsx:16-18 | the box starts with no line, no text and no shake |
| `DialogueBox.Typewriter.Show` | components/DialogueBox.tsx:20-37 | the box's new state is `Shown` of the old one: see `ShownRestarts` |
| `DialogueBox.Typewriter.ForceShow` | components/DialogueBox.tsx:40-46 | it reports completion exactly when force-show finds the line still typing; the new state is `Forced` of the old one: see `ForcedCompletes` |
| `DialogueBox.Typewriter.Step` | components/DialogueBox.tsx:62-65 | the new state is `Stepped` of the old one: see `StepKeepsPrefix` |
| `DialogueBox.Typewriter.StopShake` | components/DialogueBox.tsx:32-33 | the shake timer of the current line stops the shake; that of an earlier line changes nothing |
| `DialogueBox.ShownRestarts` | components/DialogueBox.tsx:20-37 | a new line is shown from nothing and gets a new generation; it shakes exactly when it has the shake effect; it is typing exactly when its text is non-empty |
| `DialogueBox.StepKeepsPrefix` | components/DialogueBox.tsx:48-71 | a due step of the current line appends exactly the next character, so the text stays the line's prefix; a stale step or one under force-show changes nothing |
| `DialogueBox.TypedReveals` | components/DialogueBox.tsx:48-73 | n steps reveal exactly the n next characters |
| `DialogueBox.TypingTakesOneStepPerCharacter` | components/DialogueBox.tsx:48-73 | a fresh line is still typing before as many steps as it has characters, fully shown after exactly that many, and a further step changes nothing |
| `DialogueBox.ForcedCompletes` | components/DialogueBox.tsx:40-46 | force-show shows the whole line and ends typing; without force-show, or once the line is whole, nothing changes |
| `DialogueBox.FullyShownIffNotTyping` | components/DialogueBox.tsx:52-54 | the box reports completion exactly when the index reaches the end of the line, and exactly when the whole text is shown |
| `DialogueBox.IndicatorOnlyWhenShown` | components/DialogueBox.tsx:78-106 | the indicator shows exactly when the whole line is on screen, and reads "end" exactly on the last line |
| `Timers.BeforeIsStrictTotal` | App.tsx:139-149 | firing order (due time, then the order the timers were set in) is a strict total order |
| `Timers.HasFirst` | App.tsx:139-149 | among any timers set, one fires first |
| `Timers.FirstIsUnique` | App.tsx:139-149 | the timer that fires first is unique |
| `App.Session.constructor` | App.tsx:12-68 | the session starts in `Initial`, satisfying `Valid`: see `InitialIsQuiet` |
| `App.Session.Start` | App.tsx:84-100 | the new snapshot is `Started` of the old one and `Valid` is kept: see `StartBeginsTheForest` |
| `App.Session.Transition` | App.tsx:133-150 | the new snapshot is `Transitioned` of the old one: see `TransitionGuarded`, `TransitionCompletes` |
| `App.Session.StartDialogue` | App.tsx:155-169 | the new snapshot is `DialogueStarted` of the old one: see `DialogueStartResets` |
| `App.Session.Advance` | App.tsx:171-192 | the new snapshot is `Advanced` of the old one and `Valid` is kept: see `AdvanceCompletesTyping`, `AdvanceShowsNextLine`, `AdvanceFinishesDialogue` |
| `App.Session.RunContinuation` | App.tsx:216-233 | the new snapshot is `Resumed` of the old one: see `FinishedCloses` |
| `App.Session.TriggerClimax` | App.tsx:198-237 | the new snapshot is `ClimaxTriggered` of the old one: see `ClimaxTriggersOnce` |
| `App.Session.Interact` | App.tsx:239-303 | the new snapshot is `Interacted` of the old one and `Valid` is kept: see `AcceptedInteraction`, `IgnoredInteractionChangesNothing` |
| `App.Session.ShowBlockHint` | App.tsx:305-312 | the new snapshot is `BlockHinted` of the old one: see `BlockHintOnce` |
| `App.Session.Tick` | App.tsx:316-390 | the new snapshot is `Ticked` of the old one and `Valid` is kept: see `FrozenFrameStays`, `WalkingFrame`, `WalkedFrame` |
| `App.Session.KeyDown` | hooks/useGameInput.ts:7-10 | the new snapshot is `KeyPressed` of the old one, and `Valid` is kept |
| `App.Session.KeyUp` | hooks/useGameInput.ts:12-14 | the new snapshot is `KeyReleased` of the old one, and `Valid` is kept |
| `App.Session.TouchStart` | App.tsx:636-645 | the new snapshot is `TouchPressed` of the old one, and `Valid` is kept |
| `App.Session.TouchEnd` | App.tsx:636-645 | the new snapshot is `KeyReleased` of the old one, and `Valid` is kept |
| `App.Session.TouchVision` | App.tsx:648-651 | the new snapshot is `VisionTouched` of the old one, and `Valid` is kept |
| `App.Session.ToggleVision` | App.tsx:402-406 | the new snapshot is `VisionToggled` of the old one and `Valid` is kept: see `VisionKeyToggles` |
| `App.Session.PressInteract` | App.tsx:408-420 | the new snapshot is `InteractPressed` of the old one and `Valid` is kept: see `InteractKeyDispatch` |
| `App.Session.KeyCommand` | App.tsx:398-424 | the new snapshot is `Commanded` of the old one and `Valid` is kept: see `InactiveInputIgnored`, `VisionKeyToggles` |
| `App.Session.EvalTriggers` | App.tsx:428-446 | the new snapshot is `TriggersEvaluated` of the old one and `Valid` is kept: see `TriggersRunOncePerState` |
| `App.Session.SubtitleEffect` | App.tsx:449-466 | the new snapshot is `SubtitleRan` of the old one and `Valid` is kept: see `SubtitleSelection`, `SubtitleSettles` |
| `App.Session.StepFade` | App.tsx:139-149 | the new snapshot is `FadeStepped` of the old one: see `FadeMidpointSwaps`, `FadeUncoverLifts`, `FadeDoneEnds` |
| `App.Session.Run` | App.tsx:209-235 | the new snapshot is `Ran` of the old one: see `ClimaxStepAdvances` |
| `App.Session.Fire` | App.tsx:139-149 | a timer that is set and fires before every other runs: the new snapshot is `Fired` of the old one and `Valid` is kept: see `NextTimerExists`, `FiredEvolves` |
| `AppProps.StartEvolves` | App.tsx:84-100 | the start keeps the invariant and moves the session forward: no flag unset, clock, timer order and game state version not going back, no cue taken back |
| `AppProps.DialogueStartEvolves` | App.tsx:155-169 | a dialogue start keeps the invariant and moves the session forward |
| `AppProps.AdvanceEvolves` | App.tsx:171-192 | an acknowledgement keeps the invariant and moves the session forward |
| `AppProps.TransitionEvolves` | App.tsx:133-150 | a transition request keeps the invariant and moves the session forward |
| `AppProps.ClimaxEvolves` | App.tsx:198-237 | the climax trigger keeps the invariant and moves the session forward |
| `AppProps.InteractEvolves` | App.tsx:239-303 | an interaction keeps the invariant and moves the session forward |
| `AppProps.BlockHintEvolves` | App.tsx:305-312 | the block hint keeps the invariant and moves the session forward |
| `AppProps.TickEvolves` | App.tsx:316-390 | a frame keeps the invariant and moves the session forward |
| `AppProps.CommandEvolves` | App.tsx:398-424 | the key listener keeps the invariant and moves the session forward |
| `AppProps.TriggersEvolve` | App.tsx:428-446 | the trigger effect keeps the invariant and moves the session forward |
| `AppProps.SubtitleEvolves` | App.tsx:449-466 | the subtitle effect keeps the invariant and moves the session forward |
| `AppProps.FadeEvolves` | App.tsx:139-149 | a transition stage keeps the invariant and moves the session forward |
| `AppProps.TypeStepEvolves` | components/DialogueBox.tsx:48-73 | a reveal step keeps the box, the typing flag and the dialogue in agreement |
| `AppProps.LineShownKeepsInv` | components/DialogueBox.tsx:20-37 | the box given the dialogue's current line agrees with the dialogue, and two timers are set |
| `AppProps.FiredEvolves` | App.tsx:209-235 | every timer callback keeps the invariant and moves the session forward |
| `AppLaws.InitialIsQuiet` | App.tsx:12-68 | the session begins with the initial game state, no held key, no timer, input inactive and frames frozen, and the invariant holds |
| `AppLaws.StartBeginsTheForest` | App.tsx:84-100 | the start moves to the forest with the player lying down and the tutorial shown; the forest drone plays and standing up is due after 3 s; position, flags and dialogue are kept |
| `AppLaws.DialogueStartResets` | App.tsx:155-169 | a dialogue start drops the held keys, stops walking, opens the lines at index 0 without force-show, stores the new continuation and shows the first line from nothing; game state, version and cues are kept |
| `AppLaws.AdvanceCompletesTyping` | App.tsx:177-179 | acknowledging a line still typing turns force-show on and completes the line, and changes nothing else |
| `AppLaws.AdvanceShowsNextLine` | App.tsx:182-185 | acknowledging a complete line that is not the last shows the next one from nothing and keeps the continuation |
| `AppLaws.AdvanceFinishesDialogue` | App.tsx:186-191 | acknowledging the last line closes the dialogue and then runs the stored continuation once on the closed state (its effects are `FinishedCloses`); the continuation is cleared, so a further acknowledgement does nothing |
| `AppLaws.FinishedCloses` | App.tsx:216-285 | what each continuation does, with everything else kept: the meeting's moves to the search scene with the meeting flag set and sets exactly the vision tutorial timer; the found seed's sets only the seed flag; the planting's stops the drone and starts the path transition; the door's starts the temple transition; the climax smash sets step 2, shakes, plays the scare and sets exactly the blackout timer, keeping the game state |
| `AppLaws.AdvanceWithoutDialogue` | App.tsx:175 | with no dialogue open an acknowledgement does nothing |
| `AppLaws.IgnoredInteractionChangesNothing` | App.tsx:240-242 | a completed target, any target during a transition, and the seed without vision change nothing |
| `AppLaws.AcceptedInteraction` | App.tsx:244-302 | an accepted interaction plays the chime, keeps scene and position and sets the object's flags; an altar records its flag without a dialogue; the climax timer is set after 800 ms exactly when the rite completes the ritual outside the climax |
| `AppLaws.OpenedSetsNoTimer` | App.tsx:247-286 | opening an object's dialogue sets no timer other than the box's own |
| `AppLaws.PotPlantsHeldSeed` | App.tsx:261-271 | the pot records the planting and opens its dialogue exactly when the seed is held and not planted, and otherwise does nothing |
| `AppLaws.SeedFoundLater` | App.tsx:255-259 | the seed is found only with vision; it opens its dialogue only while not held, and it is recorded only when that dialogue ends |
| `AppLaws.InteractKeyDispatch` | App.tsx:408-420 | Space or Enter advances an open dialogue; otherwise it interacts with the first object in reach unless the player is down or the climax has begun |
| `AppLaws.ClimaxTriggersOnce` | App.tsx:198-207 | the climax trigger does nothing in the climax scene and so is idempotent; otherwise it moves to the climax with the player down, the drone stopped, the scare played and the fall timer set |
| `AppLaws.ClimaxStepAdvances` | App.tsx:209-216 | only the shadow's timer changes the climax step, to 1; the climax dialogue stores the smash |
| `AppLaws.TransitionGuarded` | App.tsx:133-139 | a transition during a transition does nothing; otherwise the cover goes up and the midpoint is due after 1200 ms |
| `AppLaws.FadeMidpointSwaps` | App.tsx:139-143 | at the midpoint the scene and position change together, the midpoint action runs (nothing; the chanting drone after 500 ms; or the chanting drone now and the temple introduction after 500 ms) and the hold lasts 800 ms |
| `AppLaws.FadeUncoverLifts` | App.tsx:143-145 | after the hold the cover lifts and the end is due after 1200 ms |
| `AppLaws.FadeDoneEnds` | App.tsx:145-147 | the last stage only ends the transition |
| `AppLaws.TransitionCompletes` | App.tsx:133-150 | a transition ends after three firings, at exactly 1200, 2000 and 3200 ms after it began; scene and position change and the midpoint action runs at the first; the later two play no cue and set no pending timer; the dialogue is untouched |
| `AppLaws.FadeClearsOnlyAtEnd` | App.tsx:145-147 | a running transition ends only when its last stage fires: no other timer touches it, and its midpoint and uncover stages leave it in flight |
| `AppLaws.TransitionOutlastsHandlers` | App.tsx:134 | while a transition runs, an acknowledgement, an interaction, a frame, a key command and both effects leave it running with its stage as it was |
| `AppLaws.FrozenFrameStays` | App.tsx:321-338 | a frame after the climax began, before the start, under the epilogue, in a dialogue, lying down or in a transition keeps position, timers, dialogue and cues, and stops walking |
| `AppLaws.WalkingFrame` | App.tsx:316-387 | a walking frame moves a single held key exactly walking speed times min(elapsed, 50 ms) that way, clamped to [0, 100], and not at all on the first frame; both keys cancel; the barrier stops leftward moves and shows the hint; walking is on exactly when the step is non-zero; a footstep plays exactly when the step is non-zero and none played in the last 400 ms |
| `AppLaws.WalkedFrame` | App.tsx:340-387 | the moving part of a frame: the position becomes the clamped sum of the old one and the step `MoveDistance` gives for the held keys; walking is on exactly when that step is non-zero; a footstep plays exactly when the step is non-zero and none played in the last 400 ms |
| `AppLaws.ClampMovesAtMost` | App.tsx:367 | clamping never moves a position further than the step, nor against it |
| `AppLaws.BlockHintOnce` | App.tsx:305-312 | the block hint does nothing while its timer is set, and otherwise sets it for 2 s |
| `AppLaws.BlockHintClearsOnlyWhenDue` | App.tsx:308-311 | the block hint clears when its own timer fires, and no other timer touches it |
| `AppLaws.TriggersRunOncePerState` | App.tsx:428-446 | the trigger rules run once per game state; during a transition they fire nothing; the forest's end starts the transition to the meeting; the meeting spot opens the meeting script; the game state is kept |
| `AppLaws.SubtitleSelection` | App.tsx:453-465 | a nearby subtitle other than the one shown is shown, with its hiding timer after its duration and the whisper in the forest; otherwise nothing changes |
| `AppLaws.SubtitleSettles` | App.tsx:449-466 | run again on its own outcome the subtitle effect keeps the caption and cues, and a third run changes nothing |
| `AppLaws.InactiveInputIgnored` | App.tsx:400 | before the start and under the epilogue, key presses and commands change nothing |
| `AppLaws.VisionKeyToggles` | App.tsx:402-406 | the vision key toggles vision mode and dismisses the vision tutorial, and nothing else of the game or dialogue |
| `AppLaws.NextTimerExists` | App.tsx:139-149 | whenever a timer is set, one of them is ready to fire |
| `AppLaws.OutstandingStampsFresh` | App.tsx:139-149 | every timer set was set before the next one will be |
| `AppLaws.NewTimerFiresLast` | App.tsx:93-99 | a timer set now fires after every timer already set that is due no later |

## Left out

- Audio: the Web Audio synthesis is out of scope. Every sound is an opaque cue appended to a log.
- Rendering: layouts, CSS, camera offsets, the objective hint's text and the subtitle styling are presentation. Hints are tags.
- Story text: script lines and the subtitle table are data the session receives. They are not constants of the model.
- Real time: the browser's event loop, `requestAnimationFrame` and wall-clock timers are the environment. `Tick`, `Fire` and the effect methods are called in any order the environment chooses, including orders no browser produces.
- `Date.now()` for footsteps is replaced by the session clock. The first footstep always plays, as it does against a zero start time.
- `startDialogue` defers its second half to the next animation frame. The model runs both halves at once.
- Stale closures: React state read through an older closure is not modelled. Each handler reads the current state.
- A dialogue with no lines: the box receives no line, and the session keeps reporting a line being typed. The model follows this, and the lemmas about acknowledging a typed line require a non-empty dialogue.
- The mobile interact button's click with an empty target (App.tsx:656) and its synthetic key event (App.tsx:657) are DOM plumbing. The key event amounts to `KeyDown(" ")` followed by `KeyCommand(" ")`.
- `gameEnded` is never set. It is the constant `GameEnded := false`.
- The inventory field is carried but never changed, as in the source.
- The cover's opacity (`transitionOpacity`) only ever takes the values 0 and 1. It is the `covered` flag; the CSS fade between the two is presentation.
- App.Session.Start: requires that the game has not started, because the start screen that calls it is shown only then.
- Whole-story properties, such as the climax running once over an entire playthrough, are not proved. An interaction can be requested with any target, so they need an invariant over all reachable states. The model proves each handler's own guard instead (`ClimaxTriggersOnce`, `ClimaxStepAdvances`).
- The climax timer is set inside a state updater (App.tsx:297). The model sets it once per accepted rite, as a single run of the updater does.
- Rules.FrameDelta: frame time is whole milliseconds (`elapsed: nat`). The fractional `requestAnimationFrame` timestamps, and the floating-point arithmetic on them, are not modelled.
- Text length is counted in characters of a Dafny string, i.e. code points. The source's `.length` and indexing count UTF-16 code units; the two agree for text inside the Basic Multilingual Plane, which the shipped script is, but not for text outside it.
