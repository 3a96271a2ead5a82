/** The decoded records the catalog is built from. Their XML decoding is not part
    of this model. Blueprints, events, sector data and background image lists
    are an identifier plus an uninterpreted payload; achievements carry the
    attributes the constructor reads and sets; crew-name lists carry their sex
    and their names. */
module Records {
  import opened Wrappers

  /** Everything a decoded record holds besides its identifier. */
  type Payload(==)

  /** A record identified by `id` (blueprints, events, sector data, image lists). */
  datatype Record = Record(id: string, payload: Payload)

  type AugBlueprint = Record
  type CrewBlueprint = Record
  type DroneBlueprint = Record
  type SystemBlueprint = Record
  type WeaponBlueprint = Record
  type ShipBlueprint = Record
  type ShipEvent = Record
  type FTLEvent = Record
  type FTLEventList = Record
  type SectorDescription = Record
  type SectorType = Record
  type BackgroundImageList = Record

  function RecordId(r: Record): string {
    r.id
  }

  /** One decoded blueprints file; a list the file lacks is empty. */
  datatype Blueprints = Blueprints(
    augments: seq<AugBlueprint>,
    crews: seq<CrewBlueprint>,
    drones: seq<DroneBlueprint>,
    systems: seq<SystemBlueprint>,
    weapons: seq<WeaponBlueprint>,
    ships: seq<ShipBlueprint>)

  function Augments(b: Blueprints): seq<AugBlueprint> { b.augments }
  function Crews(b: Blueprints): seq<CrewBlueprint> { b.crews }
  function Drones(b: Blueprints): seq<DroneBlueprint> { b.drones }
  function Systems(b: Blueprints): seq<SystemBlueprint> { b.systems }
  function Weapons(b: Blueprints): seq<WeaponBlueprint> { b.weapons }
  function Ships(b: Blueprints): seq<ShipBlueprint> { b.ships }

  /** One decoded events file: its per-id event and event-list lookups and its ship events. */
  datatype Encounters = Encounters(
    events: map<string, FTLEvent>,
    eventLists: map<string, FTLEventList>,
    shipEvents: seq<ShipEvent>)

  function Events(e: Encounters): map<string, FTLEvent> { e.events }
  function EventLists(e: Encounters): map<string, FTLEventList> { e.eventLists }
  function ShipEvents(e: Encounters): seq<ShipEvent> { e.shipEvents }

  datatype SectorData = SectorData(descriptions: seq<SectorDescription>, types: seq<SectorType>)

  datatype Achievement = Achievement(
    id: string,
    name: string,
    description: string,
    imagePath: Option<string>,
    shipId: Option<string>,
    quest: bool,
    victory: bool)

  function AchievementId(a: Achievement): string {
    a.id
  }

  datatype CrewName = CrewName(name: string)

  /** A list of crew names with its `sex` attribute, which may be missing. */
  datatype CrewNameList = CrewNameList(sex: Option<string>, names: seq<CrewName>)

  /** Lazily parsed resources. */
  type ShipLayout(==)
  type ShipChassis(==)
}
