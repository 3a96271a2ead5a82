# FTL data catalog — a verified model of `DefaultDataManager`

This project models the catalog builder of FTL Profile Editor's `DefaultDataManager`.
The builder reads the game's decoded data files once, in a fixed order. From them it
builds two views of every category: "std" (the baseline game) and "dlc" (the game
with the Advanced Edition expansion). Every scoped getter picks one of the two views
by its `dlcEnabled` flag. Ship layouts and chassis are decoded lazily and kept in
two caches.

The model has these modules:

- `LinkedMaps`: Java's `LinkedHashMap` as a key sequence plus a map. Overwriting a
  key keeps its first insertion position.
- `Overlay`:
  - loading the optional and required files, keyed by file name;
  - selecting the std files, then the std and dlc files;
  - merging each category's records in file order, where the last record with an
    id wins.
- `Sectors`: the `^OVERRIDE_(.*)` two-pass split of sector types.
- `Ships`:
  - the player-ship variant groups (Type-A, Type-B and, in the dlc view, Type-C);
  - the player-ship id list;
  - the split of each ship map into player ships and auto ships.
- `Achievements`: the hard-coded quest and victory achievements, the general list
  and the per-ship lists.
- `CrewNames`: the male and female name pools.
- `Events`: the scan over all events files that keeps the last match.
- `Catalog`:
  - the hard-coded file lists and tables (`DefaultConfig`);
  - the reads, as a function of the archive's contents;
  - everything derived from them (`Derive`), and the scoped getters.
- `CatalogTheorems`: the theorems about every derived catalog.
- `Construction`: the constructor step by step, as loops. Each step is proved equal
  to the function that specifies it.
- `Manager`: the `DataManager` object. It holds its catalog, the layout and chassis
  caches, and the event lookups.

Decoded records are values:
- blueprints, events, sector descriptions, sector types and background image
  lists are an id plus an uninterpreted payload;
- an achievement carries the attributes the constructor reads and sets (id, name,
  description, image path, ship id, and the quest and victory flags);
- a crew-name list carries its `sex` attribute, which may be missing, and its names.

Archive access is modelled in two forms. The multi-file categories (blueprints
and events) are oracles from an inner path (`data/<file>`) to "absent",
"malformed" or a decoded value. The single files (achievements, crew names,
sector data, background image lists) are one such outcome each. The layout and
chassis decoders are oracles from a path to a value or a failure. They are fixed
when the manager is opened; "## Left out" says what that leaves out.

Two behaviours of the code worth noting:

- The quest/victory synthesis looks the achievement map up by the **base ship id**
  (DefaultDataManager.java:281 and 306), not by the synthesized id. An achievement
  stored under the base id gets the flag. Otherwise a placeholder is stored under
  the synthesized id, replacing anything already stored there.
- The code's comment at DefaultDataManager.java:534 says ship achievements are tied
  only to "Type A" variants. The loops at lines 535-549 build a list for every
  entry of the player-ship map, which covers the Type-B and Type-C ids too. The
  model follows the loops.

## Model

| member | source | states |
|---|---|---|
| Overlay.LoadFilesOutcome | src/main/java/net/blerf/ftl/parser/DefaultDataManager.java:159-219 | Loading succeeds exactly when no file is malformed and no required file is absent. Each present file is then stored under its name with its decoded content, and nothing else is added. |
| Catalog.RequiredIsLoadFiles | src/main/java/net/blerf/ftl/parser/DefaultDataManager.java:143-146 | Reading one required file fails or succeeds exactly as loading it as a non-optional one-file list does, with the same error. |
| Overlay.ReadFiles | src/main/java/net/blerf/ftl/parser/DefaultDataManager.java:159-219 | The loading loop computes `LoadFiles`: absent optional files are skipped, absent required files and malformed files abort. |
| Overlay.ScopeFiles | src/main/java/net/blerf/ftl/parser/DefaultDataManager.java:327-339 | The std collection is the loaded std files in list order. The dlc collection is that collection extended with the loaded dlc files. The same holds for events at lines 569-581. |
| Overlay.SelectFilesItems | src/main/java/net/blerf/ftl/parser/DefaultDataManager.java:327-339 | With distinct names, selecting appends exactly the loaded files' contents, in list order. |
| Overlay.IndexRecords | src/main/java/net/blerf/ftl/parser/DefaultDataManager.java:261-263 | The indexing loop equals inserting every record under its key, in order. It also builds the sector descriptions and background image lists (lines 232-235, 565-567). |
| Overlay.PutAllLastWins | src/main/java/net/blerf/ftl/parser/DefaultDataManager.java:341-348 | After the inserts, a key is present iff it was before or some record carries it. It maps to the last record carrying it; other keys are unchanged. |
| Overlay.MergeCategory | src/main/java/net/blerf/ftl/parser/DefaultDataManager.java:341-453 | The nested loop over the files and their records equals `MergeFiles` over the files in map order. |
| Overlay.MergeIsPutAll | src/main/java/net/blerf/ftl/parser/DefaultDataManager.java:341-453 | Merging file by file is the same as inserting all records of all files, in order, at once. |
| Overlay.ScopedOverlay | src/main/java/net/blerf/ftl/parser/DefaultDataManager.java:327-453 | The std map is the std files' records inserted in load order. The dlc map is the std map with the dlc files' records inserted after them. Std keys are dlc keys. |
| Overlay.OverlayLastWins | src/main/java/net/blerf/ftl/parser/DefaultDataManager.java:327-453 | An id is in the std map iff a std file defines it, and in the dlc map iff any file does. In each map it holds the last definition in load order, so an id defined only in dlc files is absent from std. |
| Overlay.PutAllKeeps | src/main/java/net/blerf/ftl/parser/DefaultDataManager.java:240-243 | If every inserted record has a property, every stored value has it. This is how the std sector map is shown to hold no override record. |
| Sectors.Plain | src/main/java/net/blerf/ftl/parser/DefaultDataManager.java:240-244 | The first pass keeps only sector types whose id does not fully match `^OVERRIDE_(.*)`. |
| Sectors.Overrides | src/main/java/net/blerf/ftl/parser/DefaultDataManager.java:245-250 | The second pass keeps only sector types whose id fully matches the pattern. |
| Sectors.PassesPartition | src/main/java/net/blerf/ftl/parser/DefaultDataManager.java:236-250 | The two passes split the sector types: their lengths add up and the multiset of their union is the input. |
| Sectors.ResolveSectorTypes | src/main/java/net/blerf/ftl/parser/DefaultDataManager.java:236-250 | The std map is the plain types under their ids. The dlc map is the std map with each `OVERRIDE_X` type then put under X. |
| Sectors.SectorStd | src/main/java/net/blerf/ftl/parser/DefaultDataManager.java:240-244 | The std map holds no override record. It keeps every plain type under its own id, and the last plain type with an id wins. |
| Sectors.SectorDlc | src/main/java/net/blerf/ftl/parser/DefaultDataManager.java:236-250 | Std keys are dlc keys. The dlc map holds the last `OVERRIDE_X` under X. Otherwise it holds the std record unchanged. |
| Ships.NewGroup | src/main/java/net/blerf/ftl/parser/DefaultDataManager.java:473-505 | One base contributes `base` and `base_2`, plus `base_3` when Type-C is on and the base is not excluded. Its group is the looked-up ships, with an empty slot for a missing id or an excluded Type-C. |
| Ships.BuildVariants | src/main/java/net/blerf/ftl/parser/DefaultDataManager.java:470-506 | The loop over the base ids yields the player-ship id list and the group map that `PlayerShipIdsOf`/`VariantsOf` specify. |
| Ships.VariantsOfGroups | src/main/java/net/blerf/ftl/parser/DefaultDataManager.java:470-506 | An id has a group iff it is a base id, and its group is exactly that base's slot list. |
| Ships.PlayerShipIdsMembers | src/main/java/net/blerf/ftl/parser/DefaultDataManager.java:470-506 | An id is a player-ship id iff it is one of the variant ids of some base. |
| Ships.PartitionShips | src/main/java/net/blerf/ftl/parser/DefaultDataManager.java:508-532 | The two loops build the player map from the id list and the auto map from the remaining ship entries. |
| Ships.PlayerShipsOfEntries | src/main/java/net/blerf/ftl/parser/DefaultDataManager.java:508-519 | A listed id is in the player map iff the ship map holds it, and then with the same ship. Listed ids the ship map lacks are skipped. |
| Ships.AutoShipsOfEntries | src/main/java/net/blerf/ftl/parser/DefaultDataManager.java:521-532 | A ship-map key is in the auto map iff it is not a player ship, and then with the same ship. |
| Ships.ShipPartition | src/main/java/net/blerf/ftl/parser/DefaultDataManager.java:508-532 | The player map is the ship map restricted to the player-ship ids, and the auto map is the rest. They are disjoint, and their union is the ship map. |
| Achievements.Synthesize | src/main/java/net/blerf/ftl/parser/DefaultDataManager.java:280-318 | Applying a table keeps the map well formed, keeps every achievement under its own id, and removes no key. |
| Achievements.AddShipAchievements | src/main/java/net/blerf/ftl/parser/DefaultDataManager.java:280-292 | The table loop equals `Synthesize`: a lookup by base id, then either flagging in place or storing a flagged placeholder under the synthesized id. The victory loop is at lines 306-318. |
| Achievements.SynthesizeEntry | src/main/java/net/blerf/ftl/parser/DefaultDataManager.java:280-318 | For a well-formed table: an achievement under the base id is flagged and the synthesized id is untouched. Otherwise the synthesized id holds the flagged placeholder (name = id, fixed description, no image, ship id = base), and the base id stays absent. |
| Achievements.QuestThenVictory | src/main/java/net/blerf/ftl/parser/DefaultDataManager.java:280-318 | The quest pass then the victory pass, for a base id both tables name: a stored achievement ends with both flags set. A missing one stays missing, and each pass stores its own placeholder under its synthesized id. |
| Achievements.SynthesizeOthers | src/main/java/net/blerf/ftl/parser/DefaultDataManager.java:280-318 | Keys the table does not mention keep their achievement, and no such key is added or removed. |
| Achievements.SynthesizeAddsNoGeneral | src/main/java/net/blerf/ftl/parser/DefaultDataManager.java:280-325 | Synthesis creates no general achievement: an entry without a ship id afterwards was present, without a ship id, before. |
| Achievements.WithShipId | src/main/java/net/blerf/ftl/parser/DefaultDataManager.java:320-325 | Every selected achievement has the requested ship id, and no more are selected than given. |
| Achievements.WithShipIdMembers | src/main/java/net/blerf/ftl/parser/DefaultDataManager.java:320-325 | An achievement is selected iff it is among the map's values and has the requested ship id. |
| Achievements.WithShipIdDistinct | src/main/java/net/blerf/ftl/parser/DefaultDataManager.java:320-325 | Selecting from distinct values yields distinct values. |
| Achievements.CollectByShipId | src/main/java/net/blerf/ftl/parser/DefaultDataManager.java:320-325 | The collecting loop equals `WithShipId` over the map's values in map order. It is also the inner loop of lines 536-549. |
| Achievements.BuildShipAchievements | src/main/java/net/blerf/ftl/parser/DefaultDataManager.java:534-550 | The per-ship loop equals `ShipAchievementsOf` over the player-ship keys. |
| Achievements.ShipAchievementsOfEntries | src/main/java/net/blerf/ftl/parser/DefaultDataManager.java:534-550 | A key has a list iff it is a player-ship key, and the list is exactly the achievements with that ship id, in map order. |
| Achievements.AchievementPartition | src/main/java/net/blerf/ftl/parser/DefaultDataManager.java:534-550 | The general list is exactly the achievements without a ship id. Each ship's list is exactly those with its id. No general achievement is in a ship list. |
| CrewNames.SplitCrewNames | src/main/java/net/blerf/ftl/parser/DefaultDataManager.java:556-563 | The loop appends each list's names to the male pool when its sex is "male", and to the female pool otherwise. |
| CrewNames.PoolsPartition | src/main/java/net/blerf/ftl/parser/DefaultDataManager.java:556-563 | The pools split all names: their multisets add up to all names, and so do their lengths. |
| CrewNames.MalePoolMembers | src/main/java/net/blerf/ftl/parser/DefaultDataManager.java:556-563 | A name is in the male pool iff some list whose sex is `male` holds it. |
| CrewNames.FemalePoolMembers | src/main/java/net/blerf/ftl/parser/DefaultDataManager.java:556-563 | A name is in the female pool iff some non-male list holds it, a list without a sex included. |
| Events.FindLast | src/main/java/net/blerf/ftl/parser/DefaultDataManager.java:997-1012 | The scan over the scope's events files equals `LastMatch`: a later file's match overwrites the result. |
| Events.LastMatchWins | src/main/java/net/blerf/ftl/parser/DefaultDataManager.java:997-1036 | The scan finds nothing iff no file defines the id. Otherwise it yields the definition in the last file that has one. |
| Catalog.DlcPlayerShipBaseIds | src/main/java/net/blerf/ftl/parser/DefaultDataManager.java:466-468 | The dlc base ids extend the std base ids, and hold exactly the std ids and the expansion's own. |
| Catalog.LoadAllOutcome | src/main/java/net/blerf/ftl/parser/DefaultDataManager.java:123-256 | Construction's reads succeed iff both archives exist, every single file decodes, no blueprints or dlc events file is malformed, and every std events file is present and decodes. |
| Catalog.AchievementMapOf | src/main/java/net/blerf/ftl/parser/DefaultDataManager.java:261-318 | The final achievement map is well formed and stores every achievement under its own id. |
| CatalogTheorems.AchievementFlags | src/main/java/net/blerf/ftl/parser/DefaultDataManager.java:261-318 | In the final achievement map, a ship with quest and victory entries keeps its stored achievement with both flags set. With none stored, the base id has no entry and both placeholders are present. |
| Catalog.Catalog.GetAchievement | src/main/java/net/blerf/ftl/parser/DefaultDataManager.java:691-696 | Finds something iff the id is stored, and what it finds has that id. |
| Catalog.Catalog.GetAugment | src/main/java/net/blerf/ftl/parser/DefaultDataManager.java:704-716 | Looks up the view `dlcEnabled` picks; finds something iff the id is there, and it has that id. |
| Catalog.Catalog.GetCrew | src/main/java/net/blerf/ftl/parser/DefaultDataManager.java:731-743 | As `GetAugment`, for crew blueprints. |
| Catalog.Catalog.GetDrone | src/main/java/net/blerf/ftl/parser/DefaultDataManager.java:758-770 | As `GetAugment`, for drone blueprints. |
| Catalog.Catalog.GetSystem | src/main/java/net/blerf/ftl/parser/DefaultDataManager.java:785-797 | As `GetAugment`, for system blueprints. |
| Catalog.Catalog.GetWeapon | src/main/java/net/blerf/ftl/parser/DefaultDataManager.java:800-812 | As `GetAugment`, for weapon blueprints. |
| Catalog.Catalog.GetShip | src/main/java/net/blerf/ftl/parser/DefaultDataManager.java:827-839 | As `GetAugment`, for ship blueprints. |
| Catalog.Catalog.GetPlayerShipVariant | src/main/java/net/blerf/ftl/parser/DefaultDataManager.java:900-912 | A result means the base has a group in that view, 0 <= n < 3 (dlc) or < 2 (std), and the ship's id is slot n's variant id. |
| Catalog.Catalog.GetShipAchievements | src/main/java/net/blerf/ftl/parser/DefaultDataManager.java:914-924 | A list is found iff the ship is the record stored as that player ship. The list is every achievement with that ship's id, in achievement-map order, and nothing else. |
| Catalog.Catalog.GetShipEventById | src/main/java/net/blerf/ftl/parser/DefaultDataManager.java:1055-1068 | As `GetAugment`, for ship events. |
| Catalog.Catalog.GetSectorTypeById | src/main/java/net/blerf/ftl/parser/DefaultDataManager.java:1105-1120 | The std view answers only with a plain type of that id. The dlc view may answer with the type `OVERRIDE_<id>`. |
| Catalog.Catalog.GetSectorDescriptionById | src/main/java/net/blerf/ftl/parser/DefaultDataManager.java:1123-1129 | Finds something iff the id is stored, and it has that id. |
| CatalogTheorems.VariantsShaped | src/main/java/net/blerf/ftl/parser/DefaultDataManager.java:470-506 | Every std group has 2 slots and every dlc group 3. Slot j holds nothing or the ship whose id is slot j's variant id. |
| CatalogTheorems.PartitionKeyed | src/main/java/net/blerf/ftl/parser/DefaultDataManager.java:508-532 | The player and auto maps store each ship under its own id. |
| CatalogTheorems.ShipListsOf | src/main/java/net/blerf/ftl/parser/DefaultDataManager.java:534-550 | Exactly the player ships have a list. Each list is every achievement with that ship's id, in map order, and nothing else. |
| CatalogTheorems.AchievementListsDistinct | src/main/java/net/blerf/ftl/parser/DefaultDataManager.java:320-325 | In every valid catalog the general list and each ship's list, in both views, list no achievement twice (lines 534-550 for the ship lists). |
| CatalogTheorems.SectorTypesValid | src/main/java/net/blerf/ftl/parser/DefaultDataManager.java:236-250 | The std sector view stores plain types under their ids. The dlc view stores each type under the id it overrides or its own. |
| CatalogTheorems.DeriveValid | src/main/java/net/blerf/ftl/parser/DefaultDataManager.java:260-600 | Every catalog derived from any loaded data satisfies the catalog invariant. The invariant covers the id-keyed maps, the variant group shapes, the general list (exactly the achievements without a ship id) and the per-ship lists (exactly each ship's achievements). |
| CatalogTheorems.CatalogValid | src/main/java/net/blerf/ftl/parser/DefaultDataManager.java:117-612 | A successful construction yields a valid catalog. |
| CatalogTheorems.DeriveOverlay | src/main/java/net/blerf/ftl/parser/DefaultDataManager.java:327-600 | With distinct file names, all six blueprint categories and the ship events are overlaid: std = std records in load order, dlc = std then dlc records, std keys within dlc keys. |
| CatalogTheorems.StdWithinDlc | src/main/java/net/blerf/ftl/parser/DefaultDataManager.java:704-1120 | Whatever an id getter finds in the std view, it also finds in the dlc view. This covers augments, crews, drones, systems, weapons, ships, ship events and sector types. |
| CatalogTheorems.ScopeSlots | src/main/java/net/blerf/ftl/parser/DefaultDataManager.java:900-912 | For a base, slots 0 and 1 are its Type-A and Type-B ships in the view. In the dlc view, slot 2 is empty for an excluded base and is the `_3` ship otherwise. A non-base has no variants. |
| CatalogTheorems.VariantSlots | src/main/java/net/blerf/ftl/parser/DefaultDataManager.java:470-506 | In every derived catalog, std slot 2 is always empty, and both views follow `ScopeSlots` with their base ids. |
| CatalogTheorems.DefaultConfigWellFormed | src/main/java/net/blerf/ftl/parser/DefaultDataManager.java:149-318 | The hard-coded file lists repeat no name, both achievement tables are well formed, and no victory entry names a quest synthesized id. |
| CatalogTheorems.DefaultQuestHasVictory | src/main/java/net/blerf/ftl/parser/DefaultDataManager.java:268-304 | Every ship in the hard-coded quest table also has an entry in the victory table. |
| Construction.ReadAll | src/main/java/net/blerf/ftl/parser/DefaultDataManager.java:123-256 | The reads, in the constructor's order and stopping at the first failure, compute `LoadAll`. |
| Construction.BuildAchievements | src/main/java/net/blerf/ftl/parser/DefaultDataManager.java:261-318 | The achievement loops compute `AchievementMapOf`. |
| Construction.BuildBlueprintMaps | src/main/java/net/blerf/ftl/parser/DefaultDataManager.java:341-453 | The six category loops of one scope compute each category's `MergeFiles`. |
| Construction.BuildPlayerShips | src/main/java/net/blerf/ftl/parser/DefaultDataManager.java:470-550 | One scope's id list, groups, player/auto maps and per-ship lists equal their specifications. |
| Construction.BuildCatalog | src/main/java/net/blerf/ftl/parser/DefaultDataManager.java:232-600 | The constructor's derivation loops produce exactly `Derive(cfg, loaded)`. |
| Construction.Construct | src/main/java/net/blerf/ftl/parser/DefaultDataManager.java:117-612 | The constructor's result is `CatalogOf(resources, cfg)`: the first load error, or the derived catalog. |
| Manager.DataManager.constructor | src/main/java/net/blerf/ftl/parser/DefaultDataManager.java:552-554 | A new manager holds the catalog with both caches empty. |
| Manager.DataManager.Open | src/main/java/net/blerf/ftl/parser/DefaultDataManager.java:117-612 | Opening fails iff construction does, with the same error. Otherwise it yields a fresh, valid manager over the derived catalog, with empty caches. |
| Manager.DataManager.GetShipLayout | src/main/java/net/blerf/ftl/parser/DefaultDataManager.java:931-955 | A hit returns the cached layout and leaves the cache unchanged. A miss returns the decode of `data/<id>.txt` and caches it only on success. The cache only grows, and every cached value is its file's decode. |
| Manager.DataManager.GetShipChassis | src/main/java/net/blerf/ftl/parser/DefaultDataManager.java:957-988 | As `GetShipLayout`, for `data/<id>.xml` and the chassis cache. |
| Manager.DataManager.GetEventById | src/main/java/net/blerf/ftl/parser/DefaultDataManager.java:997-1012 | Yields the event's `LastMatch` over the view's events files in load order. |
| Manager.DataManager.GetEventListById | src/main/java/net/blerf/ftl/parser/DefaultDataManager.java:1021-1036 | Yields the event list's `LastMatch` over the view's events files in load order. |

## Left out

- The Swing user interface (`FTLFrame`) is not part of this model.
- Archive access is modelled only as presence, absence or failure of a file under its inner path:
  - the packs (`PackContainer`, `FTLPack`, `FolderPack`);
  - `hasResourceInputStream` and `getResourceInputStream`;
  - `extractResources` and `close()`;
  - stream closing and the meltdown path of lines 614-632.
- XML and layout decoding (`DatParser`) is an oracle. Blueprints, events, sector data and background image lists carry an uninterpreted payload besides their id.
- The `Achievement` class is not part of this model. The achievement record keeps only the attributes the constructor reads or sets (lines 262-325). Any other attribute of a decoded achievement is not modelled.
- Manager.DataManager.GetShipLayout / GetShipChassis: the decoders are fixed when the manager is opened, so a decode is the same on every call. Java reads the archive again on each miss, so a failed read is not cached and a later call can succeed or decode differently. That transient failure followed by a successful retry is not represented. The contracts "every cached value is its file's decode" and "a hit equals the decode" rest on this fixed decoder.
- `getCrewSex` and `getCrewName` draw from the pools with `Math.random()`. Randomness and floating point are left out; the pools they draw from are modelled.
- Logging, and the distinction between Java's exception types, are left out. A load failure is one `LoadError` value naming the file.
- The scoped map getters (`getAugments`, `getCrews`, `getDrones`, `getWeapons`, `getShips`, `getAutoShips`, `getPlayerShips`, `getPlayerShipBaseIds`, `getEncounters`, `getShipEvents`) are modelled as the field selection `.Pick(dlcEnabled)` of the matching `Scoped` field of `Catalog`. Their content is stated by `Catalog.Valid` and the theorems above.
- The unscoped map getters (`getAchievements`, `getGeneralAchievements`, `getBackgroundImageLists`) are modelled as the plain fields `achievements`, `generalAchievements` and `backgroundImageLists` of `Catalog`. Their content is stated by `Catalog.Valid` and the theorems above.
- Events.FindLast: each events file's own per-id lookup (`Encounters.getEventById`) is a map from id to event, not modelled further.
- Catalog.Catalog.GetShipAchievements: Java keys the lists by the ship object's identity. The model keys them by ship id and compares the ship record by value.
- Achievements.Synthesize: records are values, so the in-place `setQuest`/`setVictory` is a put of the flagged copy under the same key. Other references to the mutated Java object are not modelled; the constructor holds none it reads later.
