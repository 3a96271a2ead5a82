/** What holds of every catalog the constructor derives. Line numbers refer
    to DefaultDataManager.java. */
module CatalogTheorems {
  import opened Wrappers
  import opened LinkedMaps
  import opened Records
  import opened Overlay
  import opened Sectors
  import opened Ships
  import opened Achievements
  import opened Catalog

  // ---------------------------------------------------------------- validity

  /** Variant groups built from a map that stores ships under their ids have
      their scope's width and hold in each slot only that slot's ship. */
  lemma VariantsShaped(ships: LinkedMap<string, ShipBlueprint>, bases: seq<string>, withTypeC: bool, noTypeC: seq<string>)
    requires KeyedBy(ships, RecordId)
    ensures GroupsShaped(VariantsOf(Empty(), ships, bases, withTypeC, noTypeC), if withTypeC then 3 else 2)
  {
    var groups := VariantsOf(Empty(), ships, bases, withTypeC, noTypeC);
    var width := if withTypeC then 3 else 2;
    forall b | b in groups.entries
      ensures |groups.entries[b]| == width
      ensures forall j :: 0 <= j < width && groups.entries[b][j].Some? ==> groups.entries[b][j].value.id == SlotId(b, j)
    {
      VariantsOfGroups(Empty(), ships, bases, withTypeC, noTypeC, b);
    }
  }

  /** The player and auto maps store ships under their ids, as the ship map does. */
  lemma PartitionKeyed(ships: LinkedMap<string, ShipBlueprint>, ids: seq<string>)
    requires IdMap(ships, RecordId)
    ensures var player := PlayerShipsOf(Empty(), ships, ids);
            IdMap(player, RecordId) && IdMap(AutoShipsOf(Empty(), ships, player, ships.keys), RecordId)
  {
    var player := PlayerShipsOf(Empty(), ships, ids);
    var auto := AutoShipsOf(Empty(), ships, player, ships.keys);
    forall k ensures (k in player.entries ==> player.entries[k].id == k) && (k in auto.entries ==> auto.entries[k].id == k) {
      PlayerShipsOfEntries(Empty(), ships, ids, k);
      AutoShipsOfEntries(Empty(), ships, player, ships.keys, k);
    }
  }

  /** Exactly the player ships get a list, and each holds all of that ship's
      achievements and no other, in order. */
  lemma ShipListsOf(players: LinkedMap<string, ShipBlueprint>, items: seq<Achievement>)
    requires players.Valid()
    ensures ShipListsShaped(players, ShipAchievementsOf(map[], players.keys, items), items)
  {
    var lists := ShipAchievementsOf(map[], players.keys, items);
    forall k | k in lists || k in players.entries
      ensures k in lists && k in players.entries && lists[k] == WithShipId(items, Some(k))
    {
      ShipAchievementsOfEntries(map[], players.keys, items, k);
    }
  }

  /** The sector-type views satisfy the catalog invariant. */
  lemma SectorTypesValid(ts: seq<SectorType>)
    ensures var std := PutAll(Empty(), Plain(ts), RecordId);
            && IdMap(std, RecordId)
            && (forall k :: k in std.entries ==> IsPlain(std.entries[k]))
            && IdMap(PutAll(std, Overrides(ts), SectorKey), SectorKey)
  {
    var std := PutAll(Empty(), Plain(ts), RecordId);
    var dlc := PutAll(std, Overrides(ts), SectorKey);
    forall k
      ensures k in std.entries ==> IsPlain(std.entries[k]) && std.entries[k].id == k
      ensures k in dlc.entries ==> SectorKey(dlc.entries[k]) == k
    {
      SectorStd(ts, k);
      SectorDlc(ts, k);
    }
    SectorStd(ts, "");
    SectorDlc(ts, "");
  }

  /** Every derived catalog satisfies the catalog invariant, whatever was loaded. */
  lemma DeriveValid(cfg: Config, l: Loaded)
    ensures Derive(cfg, l).Valid()
  {
    DeriveMapsValid(cfg, l);
    DeriveBlueprintMapsValid(cfg, l);
    DeriveEventMapsValid(cfg, l);
    DeriveShipsValid(cfg, l);
    SectorTypesValid(l.sectorData.types);
  }

  /** The achievement map of a derived catalog stores each achievement under
      its id, the general list is exactly the achievements without a ship id,
      and the blueprint file maps are well formed. */
  lemma DeriveMapsValid(cfg: Config, l: Loaded)
    ensures var c := Derive(cfg, l);
            && IdMap(c.achievements, AchievementId)
            && c.generalAchievements == WithShipId(c.achievements.Items(), None)
            && c.blueprints.std.Valid() && c.blueprints.dlc.Valid()
  {
  }

  /** The blueprint category maps of a derived catalog store each record under its id. */
  lemma DeriveBlueprintMapsValid(cfg: Config, l: Loaded)
    ensures var c := Derive(cfg, l);
            && ScopedIdMap(c.augments) && ScopedIdMap(c.crews) && ScopedIdMap(c.drones)
            && ScopedIdMap(c.systems) && ScopedIdMap(c.weapons) && ScopedIdMap(c.ships)
  {
  }

  /** The event, image-list and sector-description maps of a derived catalog
      store each record under its id. */
  lemma DeriveEventMapsValid(cfg: Config, l: Loaded)
    ensures var c := Derive(cfg, l);
            && IdMap(c.backgroundImageLists, RecordId)
            && c.events.std.Valid() && c.events.dlc.Valid()
            && ScopedIdMap(c.shipEvents)
            && IdMap(c.sectorDescriptions, RecordId)
  {
  }

  /** The player-ship structures of a derived catalog are shaped as `Valid` demands. */
  lemma DeriveShipsValid(cfg: Config, l: Loaded)
    ensures var c := Derive(cfg, l);
            && GroupsShaped(c.playerShipVariants.std, 2) && GroupsShaped(c.playerShipVariants.dlc, 3)
            && ScopedIdMap(c.playerShips) && ScopedIdMap(c.autoShips)
            && ShipListsShaped(c.playerShips.std, c.shipAchievements.std, c.achievements.Items())
            && ShipListsShaped(c.playerShips.dlc, c.shipAchievements.dlc, c.achievements.Items())
  {
    var c := Derive(cfg, l);
    VariantsShaped(c.ships.std, c.playerShipBaseIds.std, false, cfg.noTypeC);
    VariantsShaped(c.ships.dlc, c.playerShipBaseIds.dlc, true, cfg.noTypeC);
    PartitionKeyed(c.ships.std, c.playerShipIds.std);
    PartitionKeyed(c.ships.dlc, c.playerShipIds.dlc);
    ShipListsOf(c.playerShips.std, c.achievements.Items());
    ShipListsOf(c.playerShips.dlc, c.achievements.Items());
  }

  /** No achievement is listed twice: the general list and every player ship's
      list, in both views, are free of duplicates. */
  lemma AchievementListsDistinct(c: Catalog, k: string)
    requires c.Valid()
    ensures Distinct(c.generalAchievements)
    ensures k in c.shipAchievements.std ==> Distinct(c.shipAchievements.std[k])
    ensures k in c.shipAchievements.dlc ==> Distinct(c.shipAchievements.dlc[k])
  {
    ItemsDistinct(c.achievements, AchievementId);
    WithShipIdDistinct(c.achievements.Items(), None);
    WithShipIdDistinct(c.achievements.Items(), Some(k));
  }

  /** A successful construction yields a valid catalog. */
  lemma CatalogValid(res: Resources, cfg: Config)
    ensures CatalogOf(res, cfg).Success? ==> CatalogOf(res, cfg).value.Valid()
  {
    if CatalogOf(res, cfg).Success? {
      DeriveValid(cfg, LoadAll(res, cfg).value);
    }
  }

  // ---------------------------------------------------------------- overlay

  /** A category's two views: the std view is the std files' records inserted
      in load order, the dlc view is the std view with the dlc files' records
      inserted after them, and so every std id is a dlc id. */
  ghost predicate Overlaid<F>(s: Scoped<LinkedMap<string, Record>>, all: LinkedMap<string, F>,
                              stdNames: seq<string>, dlcNames: seq<string>, select: F -> seq<Record>) {
    && s.std == PutAll(Empty(), Flatten(Present(all, stdNames), select), RecordId)
    && s.dlc == PutAll(s.std, Flatten(Present(all, dlcNames), select), RecordId)
    && s.std.entries.Keys <= s.dlc.entries.Keys
  }

  /** Lines 327-453 and 569-600: every blueprint category and the ship events
      are overlaid, provided no file name is listed twice. */
  lemma DeriveOverlay(cfg: Config, l: Loaded)
    requires WellFormed(cfg)
    requires l.allBlueprints.Valid() && l.allEvents.Valid()
    ensures var c := Derive(cfg, l);
            var bs := l.allBlueprints;
            var (bStd, bDlc) := (cfg.stdBlueprintsFileNames, cfg.dlcBlueprintsFileNames);
            && Overlaid(c.augments, bs, bStd, bDlc, Augments)
            && Overlaid(c.crews, bs, bStd, bDlc, Crews)
            && Overlaid(c.drones, bs, bStd, bDlc, Drones)
            && Overlaid(c.systems, bs, bStd, bDlc, Systems)
            && Overlaid(c.weapons, bs, bStd, bDlc, Weapons)
            && Overlaid(c.ships, bs, bStd, bDlc, Records.Ships)
            && Overlaid(c.shipEvents, l.allEvents, cfg.stdEventsFileNames, cfg.dlcEventsFileNames, ShipEvents)
  {
    var (bStd, bDlc) := (cfg.stdBlueprintsFileNames, cfg.dlcBlueprintsFileNames);
    ScopedOverlay(l.allBlueprints, bStd, bDlc, Augments, RecordId);
    ScopedOverlay(l.allBlueprints, bStd, bDlc, Crews, RecordId);
    ScopedOverlay(l.allBlueprints, bStd, bDlc, Drones, RecordId);
    ScopedOverlay(l.allBlueprints, bStd, bDlc, Systems, RecordId);
    ScopedOverlay(l.allBlueprints, bStd, bDlc, Weapons, RecordId);
    ScopedOverlay(l.allBlueprints, bStd, bDlc, Records.Ships, RecordId);
    ScopedOverlay(l.allEvents, cfg.stdEventsFileNames, cfg.dlcEventsFileNames, ShipEvents, RecordId);
  }

  /** Whatever a std getter finds, the dlc getter finds too, and a sector type
      found in the std view is found in the dlc view. */
  lemma StdWithinDlc(res: Resources, cfg: Config, id: string)
    requires WellFormed(cfg)
    requires CatalogOf(res, cfg).Success?
    ensures var c := CatalogOf(res, cfg).value;
            && c.Valid()
            && (c.GetAugment(id, false).Some? ==> c.GetAugment(id, true).Some?)
            && (c.GetCrew(id, false).Some? ==> c.GetCrew(id, true).Some?)
            && (c.GetDrone(id, false).Some? ==> c.GetDrone(id, true).Some?)
            && (c.GetSystem(id, false).Some? ==> c.GetSystem(id, true).Some?)
            && (c.GetWeapon(id, false).Some? ==> c.GetWeapon(id, true).Some?)
            && (c.GetShip(id, false).Some? ==> c.GetShip(id, true).Some?)
            && (c.GetShipEventById(id, false).Some? ==> c.GetShipEventById(id, true).Some?)
            && (c.GetSectorTypeById(id, false).Some? ==> c.GetSectorTypeById(id, true).Some?)
  {
    var l := LoadAll(res, cfg).value;
    LoadAllOutcome(res, cfg);
    DeriveValid(cfg, l);
    DeriveOverlay(cfg, l);
    SectorDlc(l.sectorData.types, id);
  }

  // ---------------------------------------------------------------- variants

  /** Lines 470-506 and 900-912 together, for one scope whose groups were
      built from its ship map and base ids: the Type-A and Type-B slots of a
      base are its ships in that view; the Type-C slot exists only in the dlc
      view, where it is empty for the bases without one and the `_3` ship
      otherwise; an id that is not a base has no variants at all. */
  lemma ScopeSlots(c: Catalog, dlcEnabled: bool, bases: seq<string>, noTypeC: seq<string>, b: string, n: int)
    requires c.Valid()
    requires c.playerShipVariants.Pick(dlcEnabled) == VariantsOf(Empty(), c.ships.Pick(dlcEnabled), bases, dlcEnabled, noTypeC)
    ensures var ships := c.ships.Pick(dlcEnabled);
            && (!dlcEnabled ==> c.GetPlayerShipVariant(b, 2, false).None?)
            && (b in bases ==>
                  && c.GetPlayerShipVariant(b, 0, dlcEnabled) == ships.Get(b)
                  && c.GetPlayerShipVariant(b, 1, dlcEnabled) == ships.Get(VariantId(b, 2)))
            && (b in bases && dlcEnabled ==>
                  c.GetPlayerShipVariant(b, 2, true) == (if b in noTypeC then None else ships.Get(VariantId(b, 3))))
            && (b !in bases ==> c.GetPlayerShipVariant(b, n, dlcEnabled).None?)
  {
    if b in bases {
      ScopeSlotsOfBase(c, dlcEnabled, bases, noTypeC, b);
    } else {
      VariantsOfGroups(Empty(), c.ships.Pick(dlcEnabled), bases, dlcEnabled, noTypeC, b);
      assert c.playerShipVariants.Pick(dlcEnabled).Get(b).None?;
    }
  }

  /** The slots of one base id, as `ScopeSlots` states them. */
  lemma ScopeSlotsOfBase(c: Catalog, dlcEnabled: bool, bases: seq<string>, noTypeC: seq<string>, b: string)
    requires c.Valid() && b in bases
    requires c.playerShipVariants.Pick(dlcEnabled) == VariantsOf(Empty(), c.ships.Pick(dlcEnabled), bases, dlcEnabled, noTypeC)
    ensures var ships := c.ships.Pick(dlcEnabled);
            && c.GetPlayerShipVariant(b, 0, dlcEnabled) == ships.Get(b)
            && c.GetPlayerShipVariant(b, 1, dlcEnabled) == ships.Get(VariantId(b, 2))
            && (dlcEnabled ==> c.GetPlayerShipVariant(b, 2, true) == (if b in noTypeC then None else ships.Get(VariantId(b, 3))))
            && (!dlcEnabled ==> c.GetPlayerShipVariant(b, 2, false).None?)
  {
    var ships := c.ships.Pick(dlcEnabled);
    var g := c.playerShipVariants.Pick(dlcEnabled);
    VariantsOfGroups(Empty(), ships, bases, dlcEnabled, noTypeC, b);
    GroupSlots(ships, b, dlcEnabled, noTypeC);
    assert g.Get(b) == Some(VariantGroup(ships, b, dlcEnabled, noTypeC));
  }

  /** The slots of one group, one by one. */
  lemma GroupSlots(ships: LinkedMap<string, ShipBlueprint>, b: string, withTypeC: bool, noTypeC: seq<string>)
    ensures var group := VariantGroup(ships, b, withTypeC, noTypeC);
            && |group| == (if withTypeC then 3 else 2)
            && group[0] == ships.Get(b) && group[1] == ships.Get(VariantId(b, 2))
            && (withTypeC ==> group[2] == if b in noTypeC then None else ships.Get(VariantId(b, 3)))
  {
  }

  /** The variant theorem for a derived catalog: slot 2 of the std view is
      always empty, and both views follow `ScopeSlots` with the std and dlc
      base ids. */
  lemma VariantSlots(cfg: Config, l: Loaded, b: string, n: int)
    ensures var c := Derive(cfg, l);
            && c.Valid()
            && c.GetPlayerShipVariant(b, 2, false).None?
            && (b in cfg.stdPlayerShipBaseIds ==>
                  && c.GetPlayerShipVariant(b, 0, false) == c.ships.std.Get(b)
                  && c.GetPlayerShipVariant(b, 1, false) == c.ships.std.Get(VariantId(b, 2)))
            && (b in DlcPlayerShipBaseIds(cfg) ==>
                  && c.GetPlayerShipVariant(b, 0, true) == c.ships.dlc.Get(b)
                  && c.GetPlayerShipVariant(b, 1, true) == c.ships.dlc.Get(VariantId(b, 2))
                  && c.GetPlayerShipVariant(b, 2, true) == (if b in cfg.noTypeC then None else c.ships.dlc.Get(VariantId(b, 3))))
            && (b !in cfg.stdPlayerShipBaseIds ==> c.GetPlayerShipVariant(b, n, false).None?)
            && (b !in DlcPlayerShipBaseIds(cfg) ==> c.GetPlayerShipVariant(b, n, true).None?)
  {
    var c := Derive(cfg, l);
    DeriveValid(cfg, l);
    assert c.playerShipVariants.std == VariantsOf(Empty(), c.ships.std, cfg.stdPlayerShipBaseIds, false, cfg.noTypeC);
    assert c.playerShipVariants.dlc == VariantsOf(Empty(), c.ships.dlc, DlcPlayerShipBaseIds(cfg), true, cfg.noTypeC);
    ScopeSlots(c, false, cfg.stdPlayerShipBaseIds, cfg.noTypeC, b, n);
    ScopeSlots(c, true, DlcPlayerShipBaseIds(cfg), cfg.noTypeC, b, n);
  }

  // ---------------------------------------------------------------- the tables

  /** The hard-coded lists and tables meet what the theorems need. */
  lemma DefaultConfigWellFormed()
    ensures WellFormed(DefaultConfig)
  {
    DefaultBlueprintNames();
    DefaultEventNames();
    DefaultQuestTable();
    DefaultVictoryTable();
    DefaultTablesApart();
  }

  // The facts about the literal lists below are split into small lemmas only
  // because a single lemma comparing every pair of literal strings is too
  // costly for the solver; each states one piece of WellFormed(DefaultConfig).

  lemma DefaultBlueprintNames()
    ensures Distinct(DefaultConfig.stdBlueprintsFileNames + DefaultConfig.dlcBlueprintsFileNames)
  {
  }

  lemma DefaultEventNames()
    ensures Distinct(DefaultConfig.stdEventsFileNames + DefaultConfig.dlcEventsFileNames)
  {
    var std := DefaultConfig.stdEventsFileNames;
    var dlc := DefaultConfig.dlcEventsFileNames;
    assert std == std[..8] + std[8..];
    DefaultStdEventNamesHead();
    DefaultStdEventNamesTail();
    DefaultStdEventNamesCross();
    DistinctAppend(std[..8], std[8..]);
    DefaultEventNamesCross();
    DistinctAppend(std, dlc);
  }

  lemma DefaultStdEventNamesHead()
    ensures Distinct(DefaultConfig.stdEventsFileNames[..8])
  {
  }

  lemma DefaultStdEventNamesTail()
    ensures Distinct(DefaultConfig.stdEventsFileNames[8..])
  {
  }

  lemma DefaultStdEventNamesCross()
    ensures var std := DefaultConfig.stdEventsFileNames;
            forall i, j :: 0 <= i < 8 <= j < |std| ==> std[i] != std[j]
  {
  }

  lemma DefaultEventNamesCross()
    ensures var (std, dlc) := (DefaultConfig.stdEventsFileNames, DefaultConfig.dlcEventsFileNames);
            Distinct(dlc) && forall i, j :: 0 <= i < |std| && 0 <= j < |dlc| ==> std[i] != dlc[j]
  {
  }

  /** Two duplicate-free lists with no common element append to a duplicate-free list. */
  lemma DistinctAppend(a: seq<string>, b: seq<string>)
    requires Distinct(a) && Distinct(b)
    requires forall i, j :: 0 <= i < |a| && 0 <= j < |b| ==> a[i] != b[j]
    ensures Distinct(a + b)
  {
    var ab := a + b;
    forall i, j | 0 <= i < j < |ab| ensures ab[i] != ab[j] {
      if j < |a| {
        assert ab[i] == a[i] && ab[j] == a[j];
      } else if i < |a| {
        assert ab[i] == a[i] && ab[j] == b[j - |a|];
      } else {
        assert ab[i] == b[i - |a|] && ab[j] == b[j - |a|];
      }
    }
  }

  lemma DefaultQuestTable()
    ensures TableWellFormed(DefaultConfig.questAchIds)
  {
    DefaultQuestBases();
    DefaultQuestSynths();
    DefaultQuestCross();
  }

  lemma DefaultQuestBases()
    ensures Distinct(BaseIds(DefaultConfig.questAchIds))
  {
  }

  lemma DefaultQuestSynths()
    ensures Distinct(SynthIds(DefaultConfig.questAchIds))
  {
  }

  lemma DefaultQuestCross()
    ensures var t := DefaultConfig.questAchIds;
            forall i, j :: 0 <= i < |t| && 0 <= j < |t| ==> t[i].0 != t[j].1
  {
  }

  lemma DefaultVictoryTable()
    ensures TableWellFormed(DefaultConfig.victoryAchIds)
  {
    DefaultVictoryBases();
    DefaultVictorySynths();
    DefaultVictoryCross();
  }

  lemma DefaultVictoryBases()
    ensures Distinct(BaseIds(DefaultConfig.victoryAchIds))
  {
  }

  lemma DefaultVictorySynths()
    ensures Distinct(SynthIds(DefaultConfig.victoryAchIds))
  {
  }

  lemma DefaultVictoryCross()
    ensures var t := DefaultConfig.victoryAchIds;
            forall i, j :: 0 <= i < |t| && 0 <= j < |t| ==> t[i].0 != t[j].1
  {
  }

  /** Every quest base id of the hard-coded tables also has a victory entry, at
      `VictoryIndex(i)`: the victory table has one extra ship before the first
      quest ship and one before the third. */
  lemma DefaultQuestHasVictory(i: nat)
    requires i < |DefaultConfig.questAchIds|
    ensures VictoryIndex(i) < |DefaultConfig.victoryAchIds|
    ensures DefaultConfig.questAchIds[i].0 == DefaultConfig.victoryAchIds[VictoryIndex(i)].0
  {
  }

  function VictoryIndex(i: nat): nat {
    if i < 2 then i + 1 else i + 2
  }

  /** No victory entry mentions a quest synthesized id. */
  lemma DefaultTablesApart()
    ensures TablesApart(DefaultConfig.questAchIds, DefaultConfig.victoryAchIds)
  {
  }

  /** The achievement map, for a ship with both a quest and a victory entry
      (lines 280-292, then 306-318): its stored achievement ends with both
      flags set; with none stored, the map has no entry under the base id and
      holds the quest and the victory placeholders. */
  lemma AchievementFlags(cfg: Config, achievements: seq<Achievement>, i: nat, j: nat)
    requires WellFormed(cfg)
    requires i < |cfg.questAchIds| && j < |cfg.victoryAchIds| && cfg.questAchIds[i].0 == cfg.victoryAchIds[j].0
    ensures var m0 := PutAll(Empty(), achievements, AchievementId);
            var m := AchievementMapOf(cfg, achievements);
            var (baseId, questId) := cfg.questAchIds[i];
            var victoryId := cfg.victoryAchIds[j].1;
            && (baseId in m0.entries ==> baseId in m.entries && m.entries[baseId] == m0.entries[baseId].(quest := true, victory := true))
            && (baseId !in m0.entries ==> baseId !in m.entries)
            && (baseId !in m0.entries ==> questId in m.entries && m.entries[questId] == SetFlag(Placeholder(questId, baseId, Quest), Quest))
            && (baseId !in m0.entries ==> victoryId in m.entries && m.entries[victoryId] == SetFlag(Placeholder(victoryId, baseId, Victory), Victory))
  {
    QuestThenVictory(PutAll(Empty(), achievements, AchievementId), cfg.questAchIds, cfg.victoryAchIds, i, j);
  }
}
