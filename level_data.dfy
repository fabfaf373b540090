/** The static per-scene catalog of interactables, and the facts about its order
    and spacing that decide which object the interaction resolver picks. */
module LevelData {
  import opened Types

  function Item(id: string, x: real, labelText: string, kind: Kind): Interactable {
    Interactable(id, x, labelText, kind, None, None)
  }

  const SeedSpot := Item("seed_spot", 65.0, "看取", Seed)
  const FlowerPot := Item("pot", 75.0, "花盆", Pot)
  const LilyItem := Item("lily", 50.0, "看花", Lily)
  const TempleDoor := Item("temple_door", 90.0, "進入", Door)
  const NineSongItem := Item("ninesong", 15.0, "對話", NineSong)
  const ShadowWall := Item("shadow_wall", 8.0, "黑影", Shadow)
  const FlowerAltar := Item("altar_flower", 30.0, "供花", AltarFlower)
  const IncenseAltar := Item("altar_incense", 50.0, "點香", AltarIncense)
  const WineAltar := Item("altar_wine", 70.0, "喝酒", AltarWine)

  /** The catalog; scenes without an entry resolve to the empty list. */
  function BaseInteractables(s: GameScene): seq<Interactable> {
    match s
    case Search => [SeedSpot, FlowerPot]
    case Path => [LilyItem, TempleDoor]
    case Temple => [NineSongItem, ShadowWall, FlowerAltar, IncenseAltar, WineAltar]
    case Climax => [NineSongItem, FlowerAltar, IncenseAltar, WineAltar]
    case _ => []
  }

  /** Only four scenes have a catalog; no catalog entry carries a completion mark. */
  lemma CatalogScenes(s: GameScene)
    ensures BaseInteractables(s) != [] <==> s in {Search, Path, Temple, Climax}
    ensures forall it :: it in BaseInteractables(s) ==> it.completed == None && it.requiredItem == None
  {
  }

  /** The climax catalog repeats the temple's altars and its guide but drops the shadow. */
  lemma ClimaxCatalogIsTempleWithoutShadow()
    ensures forall it :: it in BaseInteractables(Climax) ==> it in BaseInteractables(Temple)
    ensures forall it :: it in BaseInteractables(Temple) && it.kind != Shadow ==> it in BaseInteractables(Climax)
    ensures forall it :: it in BaseInteractables(Climax) ==> it.kind != Shadow
  {
  }

  /** The altars sit 20 units apart, so no two altars of one scene are both within 10 units of a point. */
  lemma AltarsSpacedApart(s: GameScene, i: nat, j: nat, x: real)
    requires i < j < |BaseInteractables(s)|
    requires IsAltar(BaseInteractables(s)[i].kind) && IsAltar(BaseInteractables(s)[j].kind)
    ensures BaseInteractables(s)[j].x - BaseInteractables(s)[i].x >= 20.0
    ensures !(-10.0 < x - BaseInteractables(s)[i].x < 10.0 && -10.0 < x - BaseInteractables(s)[j].x < 10.0)
  {
  }
}
