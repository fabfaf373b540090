/** The data model the session controller ranges over: scenes, dialogue lines,
    subtitles, interactables and the game state record with its seven story flags. */
module Types {

  datatype Option<T> = None | Some(value: T)

  /** The eight stages of the story; exactly one is active at a time. */
  datatype GameScene = Intro | Forest | Meeting | Search | Path | Temple | Climax | Ending

  datatype Emotion = Normal | Confused | Scared | Angry

  /** The optional visual effect a dialogue line may carry. */
  datatype LineEffect = Shake | Whisper

  datatype DialogueLine = DialogueLine(speaker: string, text: string,
                                       emotion: Option<Emotion>, effect: Option<LineEffect>)

  /** A proximity-triggered caption; `duration` is optional (a fallback is computed). */
  datatype Subtitle = Subtitle(id: string, text: string, triggerX: real,
                               speaker: Option<string>, duration: Option<nat>)

  /** The nine kinds of world object. */
  datatype Kind = Seed | Pot | AltarFlower | AltarIncense | AltarWine | Lily | Door | Shadow | NineSong

  predicate IsAltar(k: Kind) {
    k == AltarFlower || k == AltarIncense || k == AltarWine
  }

  /** A world object; `completed` is absent in the static catalog and filled in by projection. */
  datatype Interactable = Interactable(id: string, x: real, labelText: string, kind: Kind,
                                       requiredItem: Option<string>, completed: Option<bool>)

  /** The seven named story flags. */
  datatype Flags = Flags(hasMetNineSong: bool, hasSeed: bool, seedPlanted: bool,
                         enteredTemple: bool, flowerPlaced: bool, incenseLit: bool,
                         wineDrunk: bool)

  const NoFlags := Flags(false, false, false, false, false, false, false)

  /** `a` is no further along than `b`: every flag set in `a` is set in `b`. */
  predicate FlagsLe(a: Flags, b: Flags) {
    && (a.hasMetNineSong ==> b.hasMetNineSong)
    && (a.hasSeed ==> b.hasSeed)
    && (a.seedPlanted ==> b.seedPlanted)
    && (a.enteredTemple ==> b.enteredTemple)
    && (a.flowerPlaced ==> b.flowerPlaced)
    && (a.incenseLit ==> b.incenseLit)
    && (a.wineDrunk ==> b.wineDrunk)
  }

  /** All three altar rites are done. */
  predicate AltarsDone(f: Flags) {
    f.flowerPlaced && f.incenseLit && f.wineDrunk
  }

  /** A player coordinate on the scene axis; always within [0, 100]. */
  type Position = x: real | 0.0 <= x <= 100.0

  datatype GameState = GameState(currentScene: GameScene, playerX: Position,
                                 inventory: seq<string>, flags: Flags)

  const InitialState := GameState(Intro, 5.0, [], NoFlags)

  /** The altar flag that an altar kind records, and nothing for the other kinds. */
  function AltarFlag(k: Kind, f: Flags): (r: Option<bool>)
    ensures r.Some? <==> IsAltar(k)
    ensures k == AltarFlower ==> r == Some(f.flowerPlaced)
    ensures k == AltarIncense ==> r == Some(f.incenseLit)
    ensures k == AltarWine ==> r == Some(f.wineDrunk)
  {
    match k
    case AltarFlower => Some(f.flowerPlaced)
    case AltarIncense => Some(f.incenseLit)
    case AltarWine => Some(f.wineDrunk)
    case _ => None
  }

  /** Recording an altar rite sets its flag and no other. */
  function WithAltar(k: Kind, f: Flags): (r: Flags)
    requires IsAltar(k)
    ensures FlagsLe(f, r)
    ensures AltarFlag(k, r) == Some(true)
    ensures forall j :: IsAltar(j) && j != k ==> AltarFlag(j, r) == AltarFlag(j, f)
    ensures r.hasMetNineSong == f.hasMetNineSong && r.hasSeed == f.hasSeed
    ensures r.seedPlanted == f.seedPlanted && r.enteredTemple == f.enteredTemple
  {
    match k
    case AltarFlower => f.(flowerPlaced := true)
    case AltarIncense => f.(incenseLit := true)
    case AltarWine => f.(wineDrunk := true)
  }

  lemma FlagsLeTransitive(a: Flags, b: Flags, c: Flags)
    requires FlagsLe(a, b) && FlagsLe(b, c)
    ensures FlagsLe(a, c)
  {
  }
}
