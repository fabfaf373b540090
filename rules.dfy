/** The pure part of the session controller: movement arithmetic, the
    completion projection over the catalog, the first-in-range resolver, the
    ordered objective hint, the scene trigger rules and the subtitle selector. */
module Rules {
  import opened Types
  import LevelData

  /** Walking speed in units per millisecond: 0.0086. */
  const Speed: real := 43.0 / 5000.0
  /** The longest frame a single tick may account for, in milliseconds. */
  const MaxFrameMs: nat := 50
  const InteractReach: real := 10.0
  const SubtitleReach: real := 8.0
  /** In the temple, walking left is refused below this coordinate. */
  const TempleBarrierX: real := 12.0

  function Abs(r: real): real {
    if r < 0.0 then -r else r
  }

  predicate Near(a: real, b: real, reach: real) {
    Abs(a - b) < reach
  }

  // ---------------------------------------------------------------- movement

  /** The frame time a tick uses: the elapsed time, cut off at 50 ms. */
  function FrameDelta(elapsed: nat): (dt: nat)
    ensures dt <= MaxFrameMs
    ensures elapsed <= MaxFrameMs ==> dt == elapsed
    ensures elapsed > MaxFrameMs ==> dt == MaxFrameMs
  {
    if elapsed < MaxFrameMs then elapsed else MaxFrameMs
  }

  /** A coordinate pulled back into [0, 100]. */
  function ClampX(v: real): (r: Position)
    ensures 0.0 <= v <= 100.0 ==> r == v
    ensures v < 0.0 ==> r == 0.0
    ensures v > 100.0 ==> r == 100.0
  {
    if v < 0.0 then 0.0 else if v > 100.0 then 100.0 else v
  }

  /** The leftward barrier: in the temple, close to the entrance. */
  predicate LeftBlocked(s: GameScene, x: real) {
    s == Temple && x < TempleBarrierX
  }

  /** The signed distance one tick walks, given which direction keys are held. */
  function MoveDistance(right: bool, left: bool, blocked: bool, dt: nat): (d: real)
    requires dt <= MaxFrameMs
    ensures -Speed * (MaxFrameMs as real) <= d <= Speed * (MaxFrameMs as real)
    ensures blocked ==> d >= 0.0
    ensures right && left && !blocked ==> d == 0.0
    ensures !right && !left ==> d == 0.0
    ensures d > 0.0 ==> right && dt > 0
    ensures d < 0.0 ==> left && !blocked && dt > 0
    ensures right && !left && dt > 0 ==> d > 0.0
    ensures left && !right && !blocked && dt > 0 ==> d < 0.0
    ensures right && (!left || blocked) ==> d == Speed * (dt as real)
    ensures left && !right && !blocked ==> d == -(Speed * (dt as real))
  {
    var rightward := if right then Speed * (dt as real) else 0.0;
    if left && !blocked then rightward - Speed * (dt as real) else rightward
  }

  // ---------------------------------------------------- catalog projection

  /** A catalog entry with its completion filled in from the story flags. */
  function Project(it: Interactable, f: Flags): Interactable {
    if IsAltar(it.kind) then it.(completed := AltarFlag(it.kind, f)) else it
  }

  /** The current scene's interactables; each altar's completion is its flag. */
  function Interactables(s: GameScene, f: Flags): (r: seq<Interactable>)
    ensures |r| == |LevelData.BaseInteractables(s)|
    ensures forall i :: 0 <= i < |r| ==>
              && r[i].id == LevelData.BaseInteractables(s)[i].id
              && r[i].x == LevelData.BaseInteractables(s)[i].x
              && r[i].kind == LevelData.BaseInteractables(s)[i].kind
              && r[i].labelText == LevelData.BaseInteractables(s)[i].labelText
              && r[i].completed == (if IsAltar(r[i].kind) then AltarFlag(r[i].kind, f)
                                    else LevelData.BaseInteractables(s)[i].completed)
  {
    var base := LevelData.BaseInteractables(s);
    seq(|base|, i requires 0 <= i < |base| => Project(base[i], f))
  }

  /** Only altars are ever marked completed, and an altar exactly when its flag is set. */
  lemma CompletedMeansAltarFlag(s: GameScene, f: Flags, i: nat)
    requires i < |Interactables(s, f)|
    ensures Interactables(s, f)[i].completed == Some(true) <==>
              IsAltar(Interactables(s, f)[i].kind) && AltarFlag(Interactables(s, f)[i].kind, f) == Some(true)
  {
    LevelData.CatalogScenes(s);
    assert LevelData.BaseInteractables(s)[i] in LevelData.BaseInteractables(s);
  }

  // ------------------------------------------------- first-in-range search

  /** The index of the first element satisfying `p`, or |s| when none does. */
  function FirstWhere<T>(s: seq<T>, p: T -> bool): (i: nat)
    ensures i <= |s|
    ensures forall j :: 0 <= j < i ==> !p(s[j])
    ensures i < |s| ==> p(s[i])
  {
    if s == [] then 0
    else if p(s[0]) then 0
    else 1 + FirstWhere(s[1..], p)
  }

  /** The interaction target: the first catalog entry within 10 units, by catalog order. */
  function Resolve(items: seq<Interactable>, x: real): (r: Option<Interactable>)
    ensures r.None? <==> forall j :: 0 <= j < |items| ==> !Near(x, items[j].x, InteractReach)
    ensures r.Some? ==> exists i :: 0 <= i < |items| && r.value == items[i]
                                    && Near(x, items[i].x, InteractReach)
                                    && forall j :: 0 <= j < i ==> !Near(x, items[j].x, InteractReach)
  {
    var i := FirstWhere(items, (it: Interactable) => Near(x, it.x, InteractReach));
    if i < |items| then Some(items[i]) else None
  }

  /** In the search scene the seed wins where both the seed and the pot are in reach. */
  lemma SearchResolution(f: Flags, x: real)
    ensures 55.0 < x < 75.0 ==> Resolve(Interactables(Search, f), x) == Some(LevelData.SeedSpot)
    ensures 75.0 <= x < 85.0 ==> Resolve(Interactables(Search, f), x) == Some(LevelData.FlowerPot)
    ensures x <= 55.0 || x >= 85.0 ==> Resolve(Interactables(Search, f), x) == None
  {
    var items := Interactables(Search, f);
    assert items[0] == LevelData.SeedSpot && items[1] == LevelData.FlowerPot;
  }

  /** The temple's resolution table: the guide wins over the shadow and the first
      altar by catalog order, and each altar owns the open interval around it. */
  lemma TempleResolution(f: Flags, x: Position)
    ensures x <= 5.0 ==> Resolve(Interactables(Temple, f), x) == Some(LevelData.ShadowWall)
    ensures 5.0 < x < 25.0 ==> Resolve(Interactables(Temple, f), x) == Some(LevelData.NineSongItem)
    ensures 25.0 <= x < 40.0 ==>
              Resolve(Interactables(Temple, f), x) == Some(LevelData.FlowerAltar.(completed := Some(f.flowerPlaced)))
    ensures 40.0 < x < 60.0 ==>
              Resolve(Interactables(Temple, f), x) == Some(LevelData.IncenseAltar.(completed := Some(f.incenseLit)))
    ensures 60.0 < x < 80.0 ==>
              Resolve(Interactables(Temple, f), x) == Some(LevelData.WineAltar.(completed := Some(f.wineDrunk)))
    ensures x == 40.0 || x == 60.0 || x >= 80.0 ==> Resolve(Interactables(Temple, f), x) == None
  {
    var items := Interactables(Temple, f);
    assert items[0] == LevelData.NineSongItem;
    assert items[1] == LevelData.ShadowWall;
    assert items[2] == LevelData.FlowerAltar.(completed := Some(f.flowerPlaced));
    assert items[3] == LevelData.IncenseAltar.(completed := Some(f.incenseLit));
    assert items[4] == LevelData.WineAltar.(completed := Some(f.wineDrunk));
  }

  // ----------------------------------------------------------- objective hint

  /** The objective shown at the top of the screen; texts are represented by tags. */
  datatype Hint = Investigate | FollowTheSound | FindLostItem | ReturnSeed | GoToTemple
                | OfferFlower | LightIncense | DrinkWine | RitualComplete | GoDeeper

  /** The ordered decision list: the first rule that matches wins. */
  function Objective(s: GameState): (h: Hint)
    ensures s.currentScene == Intro || (s.currentScene == Forest && s.playerX < 20.0) <==> h == Investigate
    ensures h == FollowTheSound ==> !s.flags.hasMetNineSong
    ensures h == FindLostItem ==> s.flags.hasMetNineSong && !s.flags.hasSeed
    ensures h == ReturnSeed ==> s.flags.hasMetNineSong && s.flags.hasSeed && !s.flags.seedPlanted
    ensures h != Investigate && !s.flags.hasMetNineSong ==> h == FollowTheSound
    ensures h in {GoToTemple, OfferFlower, LightIncense, DrinkWine, RitualComplete, GoDeeper} ==>
              s.flags.hasMetNineSong && s.flags.hasSeed && s.flags.seedPlanted
    ensures h == GoToTemple ==> s.currentScene == Path
    ensures h in {OfferFlower, LightIncense, DrinkWine, RitualComplete} ==> s.currentScene == Temple
    ensures h == OfferFlower ==> !s.flags.flowerPlaced
    ensures h == LightIncense ==> s.flags.flowerPlaced && !s.flags.incenseLit
    ensures h == DrinkWine ==> s.flags.flowerPlaced && s.flags.incenseLit && !s.flags.wineDrunk
    ensures h == RitualComplete ==> AltarsDone(s.flags)
    ensures h == GoDeeper ==> s.currentScene !in {Intro, Path, Temple}
  {
    if s.currentScene == Intro || (s.currentScene == Forest && s.playerX < 20.0) then Investigate
    else if !s.flags.hasMetNineSong then FollowTheSound
    else if !s.flags.hasSeed then FindLostItem
    else if !s.flags.seedPlanted then ReturnSeed
    else if s.currentScene == Path then GoToTemple
    else if s.currentScene == Temple then
      if !s.flags.flowerPlaced then OfferFlower
      else if !s.flags.incenseLit then LightIncense
      else if !s.flags.wineDrunk then DrinkWine
      else RitualComplete
    else GoDeeper
  }

  /** The altar rite a temple hint asks for. */
  function Rite(h: Hint): Kind
    requires h in {OfferFlower, LightIncense, DrinkWine}
  {
    match h
    case OfferFlower => AltarFlower
    case LightIncense => AltarIncense
    case DrinkWine => AltarWine
  }

  /** The position of a temple hint in the ritual: flower, incense, wine, done. */
  function RitualStep(h: Hint): nat {
    match h
    case OfferFlower => 0
    case LightIncense => 1
    case DrinkWine => 2
    case RitualComplete => 3
    case _ => 4
  }

  /** In the temple once the seed is planted, the hint names the first rite in the
      order flower, incense, wine not yet done: performing that rite moves the hint
      strictly further along the ritual, performing any other rite leaves it as it
      is, and the ritual is reported complete exactly when all three rites are done. */
  lemma TempleRitesAdvanceHint(g: GameState, k: Kind)
    requires g.currentScene == Temple && g.flags.hasMetNineSong && g.flags.hasSeed && g.flags.seedPlanted
    requires IsAltar(k)
    ensures Objective(g) in {OfferFlower, LightIncense, DrinkWine, RitualComplete}
    ensures Objective(g) == RitualComplete <==> AltarsDone(g.flags)
    ensures Objective(g) in {OfferFlower, LightIncense, DrinkWine} && k == Rite(Objective(g)) ==>
              RitualStep(Objective(g.(flags := WithAltar(k, g.flags)))) > RitualStep(Objective(g))
    ensures Objective(g) in {OfferFlower, LightIncense, DrinkWine} && k != Rite(Objective(g)) ==>
              Objective(g.(flags := WithAltar(k, g.flags))) == Objective(g)
  {
  }

  // ------------------------------------------------------------ trigger rules

  datatype Trigger = NoTrigger | EnterMeeting | MeetNineSong

  /** The logic-trigger rules, evaluated after each change of the game state. */
  function TriggerFor(s: GameState, transitioning: bool): (t: Trigger)
    ensures transitioning ==> t == NoTrigger
    ensures t == EnterMeeting <==> !transitioning && s.currentScene == Forest && s.playerX > 98.0
    ensures t == MeetNineSong <==>
              !transitioning && s.currentScene == Meeting && s.playerX > 60.0 && !s.flags.hasMetNineSong
  {
    if transitioning then NoTrigger
    else if s.currentScene == Forest && s.playerX > 98.0 then EnterMeeting
    else if s.currentScene == Meeting && s.playerX > 60.0 && !s.flags.hasMetNineSong then MeetNineSong
    else NoTrigger
  }

  /** Once the meeting script's completion has set its flag, the meeting rule never fires
      again, whatever the scene, position or later flags. */
  lemma MeetingRuleFiresOnce(s: GameState, later: GameState, transitioning: bool)
    requires s.flags.hasMetNineSong && FlagsLe(s.flags, later.flags)
    ensures TriggerFor(later, transitioning) != MeetNineSong
  {
  }

  // ---------------------------------------------------------------- subtitles

  /** The first subtitle of the scene whose trigger point is within 8 units. */
  function NearbySubtitle(subs: seq<Subtitle>, x: real): (r: Option<Subtitle>)
    ensures r.None? <==> forall j :: 0 <= j < |subs| ==> !Near(x, subs[j].triggerX, SubtitleReach)
    ensures r.Some? ==> exists i :: 0 <= i < |subs| && r.value == subs[i]
                                    && Near(x, subs[i].triggerX, SubtitleReach)
                                    && forall j :: 0 <= j < i ==> !Near(x, subs[j].triggerX, SubtitleReach)
  {
    var i := FirstWhere(subs, (s: Subtitle) => Near(x, s.triggerX, SubtitleReach));
    if i < |subs| then Some(subs[i]) else None
  }

  /** A nearby subtitle replaces the shown one only when their identities differ. */
  predicate Replaces(shown: Option<Subtitle>, nearby: Option<Subtitle>) {
    nearby.Some? && (shown.None? || shown.value.id != nearby.value.id)
  }

  /** How long a subtitle stays up: its own duration when given and non-zero,
      otherwise 200 ms per character but never less than 3 seconds. */
  function SubtitleDuration(s: Subtitle): (ms: nat)
    ensures ms > 0
    ensures s.duration.Some? && s.duration.value > 0 ==> ms == s.duration.value
    ensures !(s.duration.Some? && s.duration.value > 0) ==>
              ms >= 3000 && ms >= |s.text| * 200 && (ms == 3000 || ms == |s.text| * 200)
  {
    if s.duration.Some? && s.duration.value > 0 then s.duration.value
    else if |s.text| * 200 > 3000 then |s.text| * 200 else 3000
  }
}
