/** The constructor of `DefaultDataManager` (lines 117-612 of
    DefaultDataManager.java) step by step: the reads, then the loops that fill
    each map and list. Line numbers in this module refer to that file. */
module Construction {
  import opened Wrappers
  import opened LinkedMaps
  import opened Records
  import opened Overlay
  import opened Sectors
  import opened Ships
  import opened Achievements
  import opened CrewNames
  import opened Catalog

  /** Lines 123-256: the reads, stopping at the first failure. */
  method ReadAll(res: Resources, cfg: Config) returns (r: Result<Loaded, LoadError>)
    ensures r == LoadAll(res, cfg)
  {
    if !res.packsPresent {
      return Failure(PacksMissing);
    }
    var achievements :- Required(res.achievements, "achievements.xml");
    var stdBlueprints :- ReadFiles(Empty(), cfg.stdBlueprintsFileNames, res.blueprints, true);
    var allBlueprints :- ReadFiles(stdBlueprints, cfg.dlcBlueprintsFileNames, res.blueprints, true);
    var stdEvents :- ReadFiles(Empty(), cfg.stdEventsFileNames, res.events, false);
    var allEvents :- ReadFiles(stdEvents, cfg.dlcEventsFileNames, res.events, true);
    var crewNameLists :- Required(res.crewNames, "names.xml");
    var sectorData :- Required(res.sectorData, "sector_data.xml");
    var imageLists :- Required(res.imageLists, "events_imageList.xml");
    return Success(Loaded(achievements, allBlueprints, allEvents, crewNameLists, sectorData, imageLists));
  }

  /** Lines 261-318: the achievement map, then the quest and victory tables. */
  method BuildAchievements(cfg: Config, achievements: seq<Achievement>) returns (m: LinkedMap<string, Achievement>)
    ensures m == AchievementMapOf(cfg, achievements)
  {
    m := IndexRecords(achievements, AchievementId);
    m := AddShipAchievements(m, cfg.questAchIds, Quest);
    m := AddShipAchievements(m, cfg.victoryAchIds, Victory);
  }

  /** Lines 341-453: the six blueprint categories of one scope. */
  method BuildBlueprintMaps(files: LinkedMap<string, Blueprints>)
    returns (augments: LinkedMap<string, AugBlueprint>, crews: LinkedMap<string, CrewBlueprint>,
             drones: LinkedMap<string, DroneBlueprint>, systems: LinkedMap<string, SystemBlueprint>,
             weapons: LinkedMap<string, WeaponBlueprint>, ships: LinkedMap<string, ShipBlueprint>)
    requires files.Valid()
    ensures augments == MergeFiles(Empty(), files.Items(), Augments, RecordId)
    ensures crews == MergeFiles(Empty(), files.Items(), Crews, RecordId)
    ensures drones == MergeFiles(Empty(), files.Items(), Drones, RecordId)
    ensures systems == MergeFiles(Empty(), files.Items(), Systems, RecordId)
    ensures weapons == MergeFiles(Empty(), files.Items(), Weapons, RecordId)
    ensures ships == MergeFiles(Empty(), files.Items(), Records.Ships, RecordId)
  {
    augments := MergeCategory(files, Augments, RecordId);
    crews := MergeCategory(files, Crews, RecordId);
    drones := MergeCategory(files, Drones, RecordId);
    systems := MergeCategory(files, Systems, RecordId);
    weapons := MergeCategory(files, Weapons, RecordId);
    ships := MergeCategory(files, Records.Ships, RecordId);
  }

  /** Lines 470-550 for one scope: variant groups, the player/auto split and
      the per-ship achievement lists. */
  method BuildPlayerShips(ships: LinkedMap<string, ShipBlueprint>, bases: seq<string>, withTypeC: bool,
                          noTypeC: seq<string>, achievements: seq<Achievement>)
    returns (ids: seq<string>, groups: LinkedMap<string, seq<Option<ShipBlueprint>>>,
             player: LinkedMap<string, ShipBlueprint>, auto: LinkedMap<string, ShipBlueprint>,
             lists: map<string, seq<Achievement>>)
    requires ships.Valid()
    ensures ids == PlayerShipIdsOf(bases, withTypeC, noTypeC)
    ensures groups == VariantsOf(Empty(), ships, bases, withTypeC, noTypeC)
    ensures player == PlayerShipsOf(Empty(), ships, ids)
    ensures auto == AutoShipsOf(Empty(), ships, player, ships.keys)
    ensures lists == ShipAchievementsOf(map[], player.keys, achievements)
  {
    ids, groups := BuildVariants(ships, bases, withTypeC, noTypeC);
    player, auto := PartitionShips(ships, ids);
    lists := BuildShipAchievements(player.keys, achievements);
  }

  /** Lines 253-600: everything the constructor derives from what it read. */
  method BuildCatalog(cfg: Config, l: Loaded) returns (c: Catalog)
    ensures c == Derive(cfg, l)
  {
    var sectorDescriptions := IndexRecords(l.sectorData.descriptions, RecordId);
    var stdSectorTypes, dlcSectorTypes := ResolveSectorTypes(l.sectorData.types);
    var achievements := BuildAchievements(cfg, l.achievements);
    var generalAchievements := CollectByShipId(achievements.Items(), None);

    var stdBlueprints, dlcBlueprints := ScopeFiles(l.allBlueprints, cfg.stdBlueprintsFileNames, cfg.dlcBlueprintsFileNames);
    var stdAugments, stdCrews, stdDrones, stdSystems, stdWeapons, stdShips := BuildBlueprintMaps(stdBlueprints);
    var dlcAugments, dlcCrews, dlcDrones, dlcSystems, dlcWeapons, dlcShips := BuildBlueprintMaps(dlcBlueprints);

    var stdBases := cfg.stdPlayerShipBaseIds;
    var dlcBases := stdBases + cfg.dlcOnlyPlayerShipBaseIds;
    var stdIds, stdGroups, stdPlayer, stdAuto, stdLists :=
      BuildPlayerShips(stdShips, stdBases, false, cfg.noTypeC, achievements.Items());
    var dlcIds, dlcGroups, dlcPlayer, dlcAuto, dlcLists :=
      BuildPlayerShips(dlcShips, dlcBases, true, cfg.noTypeC, achievements.Items());

    var crewNamesMale, crewNamesFemale := SplitCrewNames(l.crewNameLists);
    var backgroundImageLists := IndexRecords(l.imageLists, RecordId);

    var stdEvents, dlcEvents := ScopeFiles(l.allEvents, cfg.stdEventsFileNames, cfg.dlcEventsFileNames);
    var stdShipEvents := MergeCategory(stdEvents, ShipEvents, RecordId);
    var dlcShipEvents := MergeCategory(dlcEvents, ShipEvents, RecordId);

    c := Catalog(
      achievements, generalAchievements,
      Scoped(stdBlueprints, dlcBlueprints),
      Scoped(stdAugments, dlcAugments), Scoped(stdCrews, dlcCrews), Scoped(stdDrones, dlcDrones),
      Scoped(stdSystems, dlcSystems), Scoped(stdWeapons, dlcWeapons), Scoped(stdShips, dlcShips),
      Scoped(stdBases, dlcBases), Scoped(stdIds, dlcIds), Scoped(stdGroups, dlcGroups),
      Scoped(stdPlayer, dlcPlayer), Scoped(stdAuto, dlcAuto), Scoped(stdLists, dlcLists),
      crewNamesMale, crewNamesFemale,
      backgroundImageLists,
      Scoped(stdEvents, dlcEvents), Scoped(stdShipEvents, dlcShipEvents),
      sectorDescriptions,
      Scoped(stdSectorTypes, dlcSectorTypes));
  }

  /** The constructor: read, then derive. */
  method Construct(res: Resources, cfg: Config) returns (r: Result<Catalog, LoadError>)
    ensures r == CatalogOf(res, cfg)
  {
    var l :- ReadAll(res, cfg);
    var c := BuildCatalog(cfg, l);
    return Success(c);
  }
}
