/** The story's text, held outside the model: the session refers to each dialogue
    script by name and receives the scripts and the per-scene subtitles as data. */
module Content {
  import opened Types

  /** The named dialogue scripts the session opens. */
  datatype ScriptId = IntroScript | MeetingScript | FoundSeedScript | PlantedSeedScript
                    | LilyScript | BeforeTempleScript | TempleIntroScript | TempleRepeatScript
                    | ShadowsScript | ClimaxScript

  /** The lines of each script, and the subtitles of the scenes that have any. */
  datatype Provider = Provider(
    intro: seq<DialogueLine>, meeting: seq<DialogueLine>, foundSeed: seq<DialogueLine>,
    plantedSeed: seq<DialogueLine>, lilyEncounter: seq<DialogueLine>, beforeTemple: seq<DialogueLine>,
    templeIntro: seq<DialogueLine>, templeRepeat: seq<DialogueLine>, shadows: seq<DialogueLine>,
    climax: seq<DialogueLine>,
    subtitles: map<GameScene, seq<Subtitle>>)

  function Script(c: Provider, id: ScriptId): seq<DialogueLine> {
    match id
    case IntroScript => c.intro
    case MeetingScript => c.meeting
    case FoundSeedScript => c.foundSeed
    case PlantedSeedScript => c.plantedSeed
    case LilyScript => c.lilyEncounter
    case BeforeTempleScript => c.beforeTemple
    case TempleIntroScript => c.templeIntro
    case TempleRepeatScript => c.templeRepeat
    case ShadowsScript => c.shadows
    case ClimaxScript => c.climax
  }

  /** A scene's subtitles; a scene without an entry has none. */
  function SceneSubtitles(c: Provider, s: GameScene): seq<Subtitle> {
    if s in c.subtitles then c.subtitles[s] else []
  }
}
