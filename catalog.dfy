/** The data manager's catalog: the hard-coded file lists and tables, the
    loading of the decoded files, every map and list the constructor of
    `DefaultDataManager` derives from them (lines 117-612 of
    DefaultDataManager.java), and the scoped getters over them (lines 690-1140).
    Line numbers in this module refer to that file. */
module Catalog {
  import opened Wrappers
  import opened LinkedMaps
  import opened Records
  import opened Overlay
  import opened Sectors
  import opened Ships
  import opened Achievements
  import opened CrewNames

  /** A structure kept once for the baseline game and once with the expansion. */
  datatype Scoped<T> = Scoped(std: T, dlc: T) {
    /** The `if ( dlcEnabled ) … else …` selection every scoped getter starts with. */
    function Pick(dlcEnabled: bool): T {
      if dlcEnabled then dlc else std
    }
  }

  // ---------------------------------------------------------------- configuration

  /** The constructor's hard-coded names and tables. */
  datatype Config = Config(
    stdBlueprintsFileNames: seq<string>,
    dlcBlueprintsFileNames: seq<string>,
    stdEventsFileNames: seq<string>,
    dlcEventsFileNames: seq<string>,
    questAchIds: seq<(string, string)>,
    victoryAchIds: seq<(string, string)>,
    stdPlayerShipBaseIds: seq<string>,
    dlcOnlyPlayerShipBaseIds: seq<string>,
    noTypeC: seq<string>)

  /** The dlc base ids: the std base ids, then the expansion's own. */
  function DlcPlayerShipBaseIds(cfg: Config): (ids: seq<string>)
    ensures cfg.stdPlayerShipBaseIds <= ids
    ensures forall b :: b in ids <==> b in cfg.stdPlayerShipBaseIds || b in cfg.dlcOnlyPlayerShipBaseIds
  {
    cfg.stdPlayerShipBaseIds + cfg.dlcOnlyPlayerShipBaseIds
  }

  /** Lines 149-157, 181-200, 268-304, 455-468 and 498-499. */
  const DefaultConfig: Config := Config(
    ["blueprints.xml", "autoBlueprints.xml", "bosses.xml"],
    ["dlcBlueprints.xml", "dlcBlueprintsOverwrite.xml", "dlcPirateBlueprints.xml"],
    ["events.xml", "newEvents.xml", "events_crystal.xml", "events_engi.xml", "events_mantis.xml",
     "events_rock.xml", "events_slug.xml", "events_zoltan.xml", "events_nebula.xml", "events_pirate.xml",
     "events_rebel.xml", "nameEvents.xml", "events_fuel.xml", "events_boss.xml", "events_ships.xml"],
    ["dlcEvents.xml", "dlcEvents_anaerobic.xml"],
    [("PLAYER_SHIP_STEALTH", "PLAYER_SHIP_STEALTH_QUEST"),
     ("PLAYER_SHIP_MANTIS", "PLAYER_SHIP_MANTIS_QUEST"),
     ("PLAYER_SHIP_FED", "PLAYER_SHIP_FED_QUEST"),
     ("PLAYER_SHIP_JELLY", "PLAYER_SHIP_JELLY_QUEST"),
     ("PLAYER_SHIP_ROCK", "PLAYER_SHIP_ROCK_QUEST"),
     ("PLAYER_SHIP_ENERGY", "PLAYER_SHIP_ENERGY_QUEST"),
     ("PLAYER_SHIP_CRYSTAL", "PLAYER_SHIP_CRYSTAL_QUEST")],
    [("PLAYER_SHIP_HARD", "PLAYER_SHIP_HARD_VICTORY"),
     ("PLAYER_SHIP_STEALTH", "PLAYER_SHIP_STEALTH_VICTORY"),
     ("PLAYER_SHIP_MANTIS", "PLAYER_SHIP_MANTIS_VICTORY"),
     ("PLAYER_SHIP_CIRCLE", "PLAYER_SHIP_CIRCLE_VICTORY"),
     ("PLAYER_SHIP_FED", "PLAYER_SHIP_FED_VICTORY"),
     ("PLAYER_SHIP_JELLY", "PLAYER_SHIP_JELLY_VICTORY"),
     ("PLAYER_SHIP_ROCK", "PLAYER_SHIP_ROCK_VICTORY"),
     ("PLAYER_SHIP_ENERGY", "PLAYER_SHIP_ENERGY_VICTORY"),
     ("PLAYER_SHIP_CRYSTAL", "PLAYER_SHIP_CRYSTAL_VICTORY"),
     ("PLAYER_SHIP_ANAEROBIC", "PLAYER_SHIP_ANAEROBIC_VICTORY")],
    ["PLAYER_SHIP_HARD", "PLAYER_SHIP_STEALTH", "PLAYER_SHIP_MANTIS", "PLAYER_SHIP_CIRCLE", "PLAYER_SHIP_FED",
     "PLAYER_SHIP_JELLY", "PLAYER_SHIP_ROCK", "PLAYER_SHIP_ENERGY", "PLAYER_SHIP_CRYSTAL"],
    ["PLAYER_SHIP_ANAEROBIC"],
    ["PLAYER_SHIP_CRYSTAL", "PLAYER_SHIP_ANAEROBIC"])

  /** What the overlay and synthesis theorems need of the tables: no file name
      is listed twice across a category's std and dlc lists, both
      achievement tables are well formed, and the victory table never
      mentions an id the quest table synthesizes. */
  ghost predicate WellFormed(cfg: Config) {
    && Distinct(cfg.stdBlueprintsFileNames + cfg.dlcBlueprintsFileNames)
    && Distinct(cfg.stdEventsFileNames + cfg.dlcEventsFileNames)
    && TableWellFormed(cfg.questAchIds)
    && TableWellFormed(cfg.victoryAchIds)
    && TablesApart(cfg.questAchIds, cfg.victoryAchIds)
  }

  /** No entry of `victory` names an id that `quest` synthesizes. */
  ghost predicate TablesApart(quest: seq<(string, string)>, victory: seq<(string, string)>) {
    forall i, k :: 0 <= i < |quest| && 0 <= k < |victory| ==> victory[k].0 != quest[i].1 && victory[k].1 != quest[i].1
  }

  // ---------------------------------------------------------------- loading

  /** The game's archives as the decoder sees them. Each resource is fetched
      under its inner path; `packsPresent` says whether both archive files exist. */
  datatype Resources = Resources(
    packsPresent: bool,
    achievements: Fetch<seq<Achievement>>,
    blueprints: string -> Fetch<Blueprints>,
    events: string -> Fetch<Encounters>,
    crewNames: Fetch<seq<CrewNameList>>,
    sectorData: Fetch<SectorData>,
    imageLists: Fetch<seq<BackgroundImageList>>,
    layouts: string -> Option<ShipLayout>,
    chassis: string -> Option<ShipChassis>)

  /** Everything the constructor reads before it derives anything. */
  datatype Loaded = Loaded(
    achievements: seq<Achievement>,
    allBlueprints: LinkedMap<string, Blueprints>,
    allEvents: LinkedMap<string, Encounters>,
    crewNameLists: seq<CrewNameList>,
    sectorData: SectorData,
    imageLists: seq<BackgroundImageList>)

  /** A single required file: missing or undecodable is fatal. */
  function Required<T>(f: Fetch<T>, fileName: string): (r: Result<T, LoadError>)
    ensures r.Success? <==> f.Parsed?
    ensures r.Success? ==> r.value == f.value
    ensures f.Absent? ==> r == Failure(FileMissing(fileName))
    ensures f.Malformed? ==> r == Failure(FileMalformed(fileName))
  {
    match f
    case Absent => Failure(FileMissing(fileName))
    case Malformed => Failure(FileMalformed(fileName))
    case Parsed(v) => Success(v)
  }

  /** `Required` is `LoadFiles` of that one file, not optional: the same
      outcome and the same error. */
  lemma RequiredIsLoadFiles<T>(f: Fetch<T>, fileName: string)
    ensures var l := LoadFiles(Empty(), [fileName], _ => f, false);
            && (Required(f, fileName).Success? <==> l.Success?)
            && (l.Failure? ==> Required(f, fileName).error == l.error)
            && (l.Success? ==> l.value.entries == map[fileName := Required(f, fileName).value])
  {
    assert [fileName][1..] == [];
  }

  /** Lines 123-256: the reads in the constructor's order; the first failure is
      the one reported. */
  function LoadAll(res: Resources, cfg: Config): Result<Loaded, LoadError> {
    if !res.packsPresent then Failure(PacksMissing)
    else
      var achievements :- Required(res.achievements, "achievements.xml");
      var stdBlueprints :- LoadFiles(Empty(), cfg.stdBlueprintsFileNames, res.blueprints, true);
      var allBlueprints :- LoadFiles(stdBlueprints, cfg.dlcBlueprintsFileNames, res.blueprints, true);
      var stdEvents :- LoadFiles(Empty(), cfg.stdEventsFileNames, res.events, false);
      var allEvents :- LoadFiles(stdEvents, cfg.dlcEventsFileNames, res.events, true);
      var crewNameLists :- Required(res.crewNames, "names.xml");
      var sectorData :- Required(res.sectorData, "sector_data.xml");
      var imageLists :- Required(res.imageLists, "events_imageList.xml");
      Success(Loaded(achievements, allBlueprints, allEvents, crewNameLists, sectorData, imageLists))
  }

  /** Construction succeeds exactly when both archives exist, every single file
      decodes, no blueprints or dlc events file is malformed, and every std
      events file is present and decodes. */
  lemma LoadAllOutcome(res: Resources, cfg: Config)
    ensures LoadAll(res, cfg).Success? <==>
      && res.packsPresent
      && res.achievements.Parsed?
      && Loadable(cfg.stdBlueprintsFileNames, res.blueprints, true)
      && Loadable(cfg.dlcBlueprintsFileNames, res.blueprints, true)
      && Loadable(cfg.stdEventsFileNames, res.events, false)
      && Loadable(cfg.dlcEventsFileNames, res.events, true)
      && res.crewNames.Parsed? && res.sectorData.Parsed? && res.imageLists.Parsed?
    ensures LoadAll(res, cfg).Success? ==>
      LoadAll(res, cfg).value.allBlueprints.Valid() && LoadAll(res, cfg).value.allEvents.Valid()
  {
    var bs := LoadFiles(Empty(), cfg.stdBlueprintsFileNames, res.blueprints, true);
    LoadFilesOutcome(Empty(), cfg.stdBlueprintsFileNames, res.blueprints, true);
    if bs.Success? {
      LoadFilesOutcome(bs.value, cfg.dlcBlueprintsFileNames, res.blueprints, true);
    }
    var es := LoadFiles(Empty(), cfg.stdEventsFileNames, res.events, false);
    LoadFilesOutcome(Empty(), cfg.stdEventsFileNames, res.events, false);
    if es.Success? {
      LoadFilesOutcome(es.value, cfg.dlcEventsFileNames, res.events, true);
    }
  }

  // ---------------------------------------------------------------- the catalog

  /** Every structure the constructor leaves behind, except the lazily filled
      layout and chassis caches. */
  datatype Catalog = Catalog(
    achievements: LinkedMap<string, Achievement>,
    generalAchievements: seq<Achievement>,
    blueprints: Scoped<LinkedMap<string, Blueprints>>,
    augments: Scoped<LinkedMap<string, AugBlueprint>>,
    crews: Scoped<LinkedMap<string, CrewBlueprint>>,
    drones: Scoped<LinkedMap<string, DroneBlueprint>>,
    systems: Scoped<LinkedMap<string, SystemBlueprint>>,
    weapons: Scoped<LinkedMap<string, WeaponBlueprint>>,
    ships: Scoped<LinkedMap<string, ShipBlueprint>>,
    playerShipBaseIds: Scoped<seq<string>>,
    playerShipIds: Scoped<seq<string>>,
    playerShipVariants: Scoped<LinkedMap<string, seq<Option<ShipBlueprint>>>>,
    playerShips: Scoped<LinkedMap<string, ShipBlueprint>>,
    autoShips: Scoped<LinkedMap<string, ShipBlueprint>>,
    shipAchievements: Scoped<map<string, seq<Achievement>>>,
    crewNamesMale: seq<CrewName>,
    crewNamesFemale: seq<CrewName>,
    backgroundImageLists: LinkedMap<string, BackgroundImageList>,
    events: Scoped<LinkedMap<string, Encounters>>,
    shipEvents: Scoped<LinkedMap<string, ShipEvent>>,
    sectorDescriptions: LinkedMap<string, SectorDescription>,
    sectorTypes: Scoped<LinkedMap<string, SectorType>>)
  {
    /** What every constructed catalog satisfies: each id map is well formed
        and stores every record under its own id (sector types in the dlc view
        under the id they override), every variant group has its scope's width
        and holds in slot j only the ship with that slot's id, the general list
        is exactly the achievements without a ship id, and each player ship's
        list is exactly the achievements with that ship's id, both in map order. */
    ghost predicate Valid() {
      && IdMap(achievements, AchievementId)
      && generalAchievements == WithShipId(achievements.Items(), None)
      && blueprints.std.Valid() && blueprints.dlc.Valid()
      && ScopedIdMap(augments) && ScopedIdMap(crews) && ScopedIdMap(drones)
      && ScopedIdMap(systems) && ScopedIdMap(weapons) && ScopedIdMap(ships)
      && GroupsShaped(playerShipVariants.std, 2) && GroupsShaped(playerShipVariants.dlc, 3)
      && ScopedIdMap(playerShips) && ScopedIdMap(autoShips)
      && ShipListsShaped(playerShips.std, shipAchievements.std, achievements.Items())
      && ShipListsShaped(playerShips.dlc, shipAchievements.dlc, achievements.Items())
      && IdMap(backgroundImageLists, RecordId)
      && events.std.Valid() && events.dlc.Valid()
      && ScopedIdMap(shipEvents)
      && IdMap(sectorDescriptions, RecordId)
      && IdMap(sectorTypes.std, RecordId)
      && (forall k :: k in sectorTypes.std.entries ==> IsPlain(sectorTypes.std.entries[k]))
      && IdMap(sectorTypes.dlc, SectorKey)
    }

    /** Lines 691-696. */
    function GetAchievement(id: string): (r: Option<Achievement>)
      requires Valid()
      ensures r.Some? <==> id in achievements.entries
      ensures r.Some? ==> r.value.id == id
    {
      achievements.Get(id)
    }

    /** Lines 704-716. */
    function GetAugment(id: string, dlcEnabled: bool): (r: Option<AugBlueprint>)
      requires Valid()
      ensures r.Some? <==> id in augments.Pick(dlcEnabled).entries
      ensures r.Some? ==> r.value.id == id
    {
      augments.Pick(dlcEnabled).Get(id)
    }

    /** Lines 731-743. */
    function GetCrew(id: string, dlcEnabled: bool): (r: Option<CrewBlueprint>)
      requires Valid()
      ensures r.Some? <==> id in crews.Pick(dlcEnabled).entries
      ensures r.Some? ==> r.value.id == id
    {
      crews.Pick(dlcEnabled).Get(id)
    }

    /** Lines 758-770. */
    function GetDrone(id: string, dlcEnabled: bool): (r: Option<DroneBlueprint>)
      requires Valid()
      ensures r.Some? <==> id in drones.Pick(dlcEnabled).entries
      ensures r.Some? ==> r.value.id == id
    {
      drones.Pick(dlcEnabled).Get(id)
    }

    /** Lines 785-797. */
    function GetSystem(id: string, dlcEnabled: bool): (r: Option<SystemBlueprint>)
      requires Valid()
      ensures r.Some? <==> id in systems.Pick(dlcEnabled).entries
      ensures r.Some? ==> r.value.id == id
    {
      systems.Pick(dlcEnabled).Get(id)
    }

    /** Lines 800-812. */
    function GetWeapon(id: string, dlcEnabled: bool): (r: Option<WeaponBlueprint>)
      requires Valid()
      ensures r.Some? <==> id in weapons.Pick(dlcEnabled).entries
      ensures r.Some? ==> r.value.id == id
    {
      weapons.Pick(dlcEnabled).Get(id)
    }

    /** Lines 827-839. */
    function GetShip(id: string, dlcEnabled: bool): (r: Option<ShipBlueprint>)
      requires Valid()
      ensures r.Some? <==> id in ships.Pick(dlcEnabled).entries
      ensures r.Some? ==> r.value.id == id
    {
      ships.Pick(dlcEnabled).Get(id)
    }

    /** Lines 900-912: no group, a negative index or one past the group's end
        gives nothing; otherwise the slot, which may itself be empty. */
    function GetPlayerShipVariant(baseId: string, n: int, dlcEnabled: bool): (r: Option<ShipBlueprint>)
      requires Valid()
      ensures r.Some? ==> baseId in playerShipVariants.Pick(dlcEnabled).entries
      ensures r.Some? ==> 0 <= n < (if dlcEnabled then 3 else 2) && r.value.id == SlotId(baseId, n)
    {
      var variantList := playerShipVariants.Pick(dlcEnabled).Get(baseId);
      if variantList.None? || n < 0 || n >= |variantList.value| then None
      else variantList.value[n]
    }

    /** Lines 914-924. The per-ship lists are keyed by ship id here; a ship
        finds its list only when it is the very record stored as that player ship. */
    function GetShipAchievements(ship: ShipBlueprint, dlcEnabled: bool): (r: Option<seq<Achievement>>)
      requires Valid()
      ensures r.Some? <==> ship.id in playerShips.Pick(dlcEnabled).entries && playerShips.Pick(dlcEnabled).entries[ship.id] == ship
      ensures r.Some? ==> r.value == WithShipId(achievements.Items(), Some(ship.id))
      ensures r.Some? ==> forall i :: 0 <= i < |r.value| ==> r.value[i].shipId == Some(ship.id)
    {
      var players := playerShips.Pick(dlcEnabled);
      if ship.id in players.entries && players.entries[ship.id] == ship then
        Some(shipAchievements.Pick(dlcEnabled)[ship.id])
      else None
    }

    /** Lines 1055-1068. */
    function GetShipEventById(id: string, dlcEnabled: bool): (r: Option<ShipEvent>)
      requires Valid()
      ensures r.Some? <==> id in shipEvents.Pick(dlcEnabled).entries
      ensures r.Some? ==> r.value.id == id
    {
      shipEvents.Pick(dlcEnabled).Get(id)
    }

    /** Lines 1105-1120: in the dlc view an id may be answered by the record
        that overrides it; the std view never answers with an override record. */
    function GetSectorTypeById(id: string, dlcEnabled: bool): (r: Option<SectorType>)
      requires Valid()
      ensures r.Some? <==> id in sectorTypes.Pick(dlcEnabled).entries
      ensures r.Some? && !dlcEnabled ==> r.value.id == id && !IsOverride(r.value.id)
      ensures r.Some? && dlcEnabled ==> r.value.id == id || (IsOverride(r.value.id) && OverriddenId(r.value.id) == id)
    {
      sectorTypes.Pick(dlcEnabled).Get(id)
    }

    /** Lines 1123-1129. */
    function GetSectorDescriptionById(id: string): (r: Option<SectorDescription>)
      requires Valid()
      ensures r.Some? <==> id in sectorDescriptions.entries
      ensures r.Some? ==> r.value.id == id
    {
      sectorDescriptions.Get(id)
    }
  }

  /** A well-formed map that stores every value under its key. */
  ghost predicate IdMap<R>(m: LinkedMap<string, R>, key: R -> string) {
    m.Valid() && KeyedBy(m, key)
  }

  ghost predicate ScopedIdMap(s: Scoped<LinkedMap<string, Record>>) {
    IdMap(s.std, RecordId) && IdMap(s.dlc, RecordId)
  }

  /** Every group has `width` slots, and slot j holds nothing or the ship whose
      id is that slot's variant id. */
  ghost predicate GroupsShaped(groups: LinkedMap<string, seq<Option<ShipBlueprint>>>, width: nat) {
    && width <= 3
    && groups.Valid()
    && forall b :: b in groups.entries ==>
         && |groups.entries[b]| == width
         && forall j :: 0 <= j < width && groups.entries[b][j].Some? ==> groups.entries[b][j].value.id == SlotId(b, j)
  }

  /** Exactly the player ships have a list, and each list is every achievement
      of `items` with that ship's id, in order. */
  ghost predicate ShipListsShaped(players: LinkedMap<string, ShipBlueprint>, lists: map<string, seq<Achievement>>,
                                  items: seq<Achievement>) {
    && lists.Keys == players.entries.Keys
    && forall k :: k in lists ==> lists[k] == WithShipId(items, Some(k))
  }

  // ---------------------------------------------------------------- derivation

  /** Lines 261-318: the achievement map with the hard-coded ship achievements. */
  function AchievementMapOf(cfg: Config, achievements: seq<Achievement>): (m: LinkedMap<string, Achievement>)
    ensures IdMap(m, AchievementId)
  {
    var m0 := PutAll(Empty(), achievements, AchievementId);
    Synthesize(Synthesize(m0, cfg.questAchIds, Quest), cfg.victoryAchIds, Victory)
  }

  /** What the constructor derives from what it loaded. */
  function Derive(cfg: Config, l: Loaded): Catalog {
    var achievements := AchievementMapOf(cfg, l.achievements);
    var stdBlueprints := SelectFiles(Empty(), l.allBlueprints, cfg.stdBlueprintsFileNames);
    var dlcBlueprints := SelectFiles(stdBlueprints, l.allBlueprints, cfg.dlcBlueprintsFileNames);
    var stdFiles := stdBlueprints.Items();
    var dlcFiles := dlcBlueprints.Items();
    var ships := Scoped(MergeFiles(Empty(), stdFiles, Records.Ships, RecordId), MergeFiles(Empty(), dlcFiles, Records.Ships, RecordId));
    var bases := Scoped(cfg.stdPlayerShipBaseIds, DlcPlayerShipBaseIds(cfg));
    var ids := Scoped(PlayerShipIdsOf(bases.std, false, cfg.noTypeC), PlayerShipIdsOf(bases.dlc, true, cfg.noTypeC));
    var players := Scoped(PlayerShipsOf(Empty(), ships.std, ids.std), PlayerShipsOf(Empty(), ships.dlc, ids.dlc));
    var stdEvents := SelectFiles(Empty(), l.allEvents, cfg.stdEventsFileNames);
    var dlcEvents := SelectFiles(stdEvents, l.allEvents, cfg.dlcEventsFileNames);
    var stdSectorTypes := PutAll(Empty(), Plain(l.sectorData.types), RecordId);
    Catalog(
      achievements,
      WithShipId(achievements.Items(), None),
      Scoped(stdBlueprints, dlcBlueprints),
      Scoped(MergeFiles(Empty(), stdFiles, Augments, RecordId), MergeFiles(Empty(), dlcFiles, Augments, RecordId)),
      Scoped(MergeFiles(Empty(), stdFiles, Crews, RecordId), MergeFiles(Empty(), dlcFiles, Crews, RecordId)),
      Scoped(MergeFiles(Empty(), stdFiles, Drones, RecordId), MergeFiles(Empty(), dlcFiles, Drones, RecordId)),
      Scoped(MergeFiles(Empty(), stdFiles, Systems, RecordId), MergeFiles(Empty(), dlcFiles, Systems, RecordId)),
      Scoped(MergeFiles(Empty(), stdFiles, Weapons, RecordId), MergeFiles(Empty(), dlcFiles, Weapons, RecordId)),
      ships,
      bases,
      ids,
      Scoped(VariantsOf(Empty(), ships.std, bases.std, false, cfg.noTypeC), VariantsOf(Empty(), ships.dlc, bases.dlc, true, cfg.noTypeC)),
      players,
      Scoped(AutoShipsOf(Empty(), ships.std, players.std, ships.std.keys), AutoShipsOf(Empty(), ships.dlc, players.dlc, ships.dlc.keys)),
      Scoped(ShipAchievementsOf(map[], players.std.keys, achievements.Items()),
             ShipAchievementsOf(map[], players.dlc.keys, achievements.Items())),
      MalePool(l.crewNameLists),
      FemalePool(l.crewNameLists),
      PutAll(Empty(), l.imageLists, RecordId),
      Scoped(stdEvents, dlcEvents),
      Scoped(MergeFiles(Empty(), stdEvents.Items(), ShipEvents, RecordId), MergeFiles(Empty(), dlcEvents.Items(), ShipEvents, RecordId)),
      PutAll(Empty(), l.sectorData.descriptions, RecordId),
      Scoped(stdSectorTypes, PutAll(stdSectorTypes, Overrides(l.sectorData.types), SectorKey)))
  }

  /** The constructor: load, then derive; any load failure aborts construction. */
  function CatalogOf(res: Resources, cfg: Config): Result<Catalog, LoadError> {
    var l :- LoadAll(res, cfg);
    Success(Derive(cfg, l))
  }
}
