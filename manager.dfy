/** The data manager object: the catalog its constructor derives, which never
    changes afterwards, and the two caches its getters fill on demand. Line
    numbers refer to DefaultDataManager.java. */
module Manager {
  import opened Wrappers
  import opened Records
  import opened Overlay
  import opened Events
  import opened Catalog
  import opened Construction
  import CatalogTheorems

  /** Inner path of a ship's layout file. */
  function LayoutPath(id: string): string {
    DataPath(id + ".txt")
  }

  /** Inner path of a ship's chassis file. */
  function ChassisPath(id: string): string {
    DataPath(id + ".xml")
  }

  class DataManager {
    const catalog: Catalog
    /** The archive's layout and chassis decoders: a path decodes to a value or fails. */
    const parseLayout: string -> Option<ShipLayout>
    const parseChassis: string -> Option<ShipChassis>
    var shipLayouts: map<string, ShipLayout>
    var shipChassisMap: map<string, ShipChassis>

    /** The catalog invariant, and every cached value is what its file decodes to. */
    ghost predicate Valid()
      reads this
    {
      && catalog.Valid()
      && (forall id :: id in shipLayouts ==> parseLayout(LayoutPath(id)) == Some(shipLayouts[id]))
      && (forall id :: id in shipChassisMap ==> parseChassis(ChassisPath(id)) == Some(shipChassisMap[id]))
    }

    /** Lines 553-554: the caches start empty. */
    constructor (c: Catalog, layouts: string -> Option<ShipLayout>, chassis: string -> Option<ShipChassis>)
      requires c.Valid()
      ensures Valid()
      ensures catalog == c && parseLayout == layouts && parseChassis == chassis
      ensures shipLayouts == map[] && shipChassisMap == map[]
    {
      catalog := c;
      parseLayout := layouts;
      parseChassis := chassis;
      shipLayouts := map[];
      shipChassisMap := map[];
    }

    /** `new DefaultDataManager(datsDir)`: construction fails with the first
        load error, or yields a manager over the derived catalog. */
    static method Open(res: Resources, cfg: Config) returns (r: Result<DataManager, LoadError>)
      ensures r.Success? <==> CatalogOf(res, cfg).Success?
      ensures r.Failure? ==> r.error == CatalogOf(res, cfg).error
      ensures r.Success? ==> fresh(r.value) && r.value.Valid() && r.value.catalog == CatalogOf(res, cfg).value
      ensures r.Success? ==> r.value.shipLayouts == map[] && r.value.shipChassisMap == map[]
    {
      var c :- Construct(res, cfg);
      CatalogTheorems.CatalogValid(res, cfg);
      var m := new DataManager(c, res.layouts, res.chassis);
      return Success(m);
    }

    /** Lines 931-955. A hit returns the cached layout and parses nothing; a
        miss parses `data/<id>.txt` and caches the layout only when parsing
        succeeds, so a failed id is parsed again next time. Cached layouts
        never change or disappear. */
    method GetShipLayout(id: string) returns (r: Option<ShipLayout>)
      requires Valid()
      modifies this`shipLayouts
      ensures Valid()
      ensures id in old(shipLayouts) ==> r == Some(old(shipLayouts)[id]) && shipLayouts == old(shipLayouts)
      ensures id !in old(shipLayouts) ==> r == parseLayout(LayoutPath(id))
      ensures id !in old(shipLayouts) && r.Some? ==> shipLayouts == old(shipLayouts)[id := r.value]
      ensures id !in old(shipLayouts) && r.None? ==> shipLayouts == old(shipLayouts)
      ensures r == parseLayout(LayoutPath(id))
      ensures forall k :: k in old(shipLayouts) ==> k in shipLayouts && shipLayouts[k] == old(shipLayouts)[k]
    {
      if id in shipLayouts {
        return Some(shipLayouts[id]);
      }
      r := parseLayout(LayoutPath(id));
      if r.Some? {
        shipLayouts := shipLayouts[id := r.value];
      }
    }

    /** Lines 957-988, the same for `data/<id>.xml` and the chassis cache. */
    method GetShipChassis(id: string) returns (r: Option<ShipChassis>)
      requires Valid()
      modifies this`shipChassisMap
      ensures Valid()
      ensures id in old(shipChassisMap) ==> r == Some(old(shipChassisMap)[id]) && shipChassisMap == old(shipChassisMap)
      ensures id !in old(shipChassisMap) ==> r == parseChassis(ChassisPath(id))
      ensures id !in old(shipChassisMap) && r.Some? ==> shipChassisMap == old(shipChassisMap)[id := r.value]
      ensures id !in old(shipChassisMap) && r.None? ==> shipChassisMap == old(shipChassisMap)
      ensures r == parseChassis(ChassisPath(id))
      ensures forall k :: k in old(shipChassisMap) ==> k in shipChassisMap && shipChassisMap[k] == old(shipChassisMap)[k]
    {
      if id in shipChassisMap {
        return Some(shipChassisMap[id]);
      }
      r := parseChassis(ChassisPath(id));
      if r.Some? {
        shipChassisMap := shipChassisMap[id := r.value];
      }
    }

    /** Lines 997-1012: the last events file of the scope that defines `id` wins. */
    method GetEventById(id: string, dlcEnabled: bool) returns (r: Option<FTLEvent>)
      requires catalog.Valid()
      ensures r == LastMatch(None, catalog.events.Pick(dlcEnabled).Items(), Records.Events, id)
    {
      r := FindLast(catalog.events.Pick(dlcEnabled), Records.Events, id);
    }

    /** Lines 1021-1036, the same for event lists. */
    method GetEventListById(id: string, dlcEnabled: bool) returns (r: Option<FTLEventList>)
      requires catalog.Valid()
      ensures r == LastMatch(None, catalog.events.Pick(dlcEnabled).Items(), EventLists, id)
    {
      r := FindLast(catalog.events.Pick(dlcEnabled), EventLists, id);
    }
  }
}
