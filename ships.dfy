/** Player-ship variant groups (lines 470-506 of DefaultDataManager.java) and
    the player/auto split of a scope's ship map (lines 508-532). Line numbers in
    this module refer to that file. */
module Ships {
  import opened Wrappers
  import opened LinkedMaps
  import opened Records
  import opened Overlay

  /** `String.format("%s_%d", baseId, n)`. */
  function VariantId(baseId: string, n: nat): string
    requires 2 <= n <= 3
  {
    baseId + (if n == 2 then "_2" else "_3")
  }

  /** The id held by slot `slot` (0 = Type-A, 1 = Type-B, 2 = Type-C) of a group. */
  function SlotId(baseId: string, slot: nat): string
    requires slot < 3
  {
    if slot == 0 then baseId else VariantId(baseId, slot + 1)
  }

  /** The ids one base contributes to the player-ship id list: Type-A, Type-B
      and, with Type-C layouts enabled, Type-C unless the base has none. */
  function VariantIds(baseId: string, withTypeC: bool, noTypeC: seq<string>): seq<string> {
    [baseId, VariantId(baseId, 2)] + (if withTypeC && baseId !in noTypeC then [VariantId(baseId, 3)] else [])
  }

  /** One base's group of slots; an id missing from the ship map is an empty slot. */
  function VariantGroup(ships: LinkedMap<string, ShipBlueprint>, baseId: string, withTypeC: bool, noTypeC: seq<string>)
    : seq<Option<ShipBlueprint>>
  {
    [ships.Get(baseId), ships.Get(VariantId(baseId, 2))]
      + (if withTypeC then [if baseId in noTypeC then None else ships.Get(VariantId(baseId, 3))] else [])
  }

  function PlayerShipIdsOf(bases: seq<string>, withTypeC: bool, noTypeC: seq<string>): seq<string>
    decreases |bases|
  {
    if bases == [] then [] else VariantIds(bases[0], withTypeC, noTypeC) + PlayerShipIdsOf(bases[1..], withTypeC, noTypeC)
  }

  function VariantsOf(acc: LinkedMap<string, seq<Option<ShipBlueprint>>>, ships: LinkedMap<string, ShipBlueprint>,
                      bases: seq<string>, withTypeC: bool, noTypeC: seq<string>)
    : (r: LinkedMap<string, seq<Option<ShipBlueprint>>>)
    ensures acc.Valid() ==> r.Valid()
    decreases |bases|
  {
    if bases == [] then acc
    else VariantsOf(acc.Put(bases[0], VariantGroup(ships, bases[0], withTypeC, noTypeC)), ships, bases[1..], withTypeC, noTypeC)
  }

  /** Lines 470-506: one loop per scope over the base ids (std without Type-C
      slots, dlc with them), filling the player-ship id list and the groups. */
  method BuildVariants(ships: LinkedMap<string, ShipBlueprint>, bases: seq<string>, withTypeC: bool, noTypeC: seq<string>)
    returns (ids: seq<string>, groups: LinkedMap<string, seq<Option<ShipBlueprint>>>)
    ensures ids == PlayerShipIdsOf(bases, withTypeC, noTypeC)
    ensures groups == VariantsOf(Empty(), ships, bases, withTypeC, noTypeC)
  {
    ids := [];
    groups := Empty();
    var i := 0;
    while i < |bases|
      invariant 0 <= i <= |bases|
      invariant ids + PlayerShipIdsOf(bases[i..], withTypeC, noTypeC) == PlayerShipIdsOf(bases, withTypeC, noTypeC)
      invariant VariantsOf(groups, ships, bases[i..], withTypeC, noTypeC) == VariantsOf(Empty(), ships, bases, withTypeC, noTypeC)
    {
      var baseId := bases[i];
      VariantsStep(ids, groups, ships, bases, withTypeC, noTypeC, i);
      var baseIds, variantList := NewGroup(ships, baseId, withTypeC, noTypeC);
      ids := ids + baseIds;
      groups := groups.Put(baseId, variantList);
      i := i + 1;
    }
  }

  /** One step of that loop: base i contributes its ids and its group. */
  lemma VariantsStep(ids: seq<string>, groups: LinkedMap<string, seq<Option<ShipBlueprint>>>, ships: LinkedMap<string, ShipBlueprint>,
                     bases: seq<string>, withTypeC: bool, noTypeC: seq<string>, i: nat)
    requires i < |bases|
    ensures ids + PlayerShipIdsOf(bases[i..], withTypeC, noTypeC)
         == (ids + VariantIds(bases[i], withTypeC, noTypeC)) + PlayerShipIdsOf(bases[i + 1..], withTypeC, noTypeC)
    ensures VariantsOf(groups, ships, bases[i..], withTypeC, noTypeC)
         == VariantsOf(groups.Put(bases[i], VariantGroup(ships, bases[i], withTypeC, noTypeC)), ships, bases[i + 1..], withTypeC, noTypeC)
  {
    assert bases[i..][0] == bases[i] && bases[i..][1..] == bases[i + 1..];
  }

  /** Lines 473-505: the ids and slots of one base. */
  method NewGroup(ships: LinkedMap<string, ShipBlueprint>, baseId: string, withTypeC: bool, noTypeC: seq<string>)
    returns (ids: seq<string>, variantList: seq<Option<ShipBlueprint>>)
    ensures ids == VariantIds(baseId, withTypeC, noTypeC)
    ensures variantList == VariantGroup(ships, baseId, withTypeC, noTypeC)
  {
    // All ships have a Type-B layout; most have a Type-C layout.
    var variantId := VariantId(baseId, 2);
    ids := [baseId, variantId];
    variantList := [ships.Get(baseId), ships.Get(variantId)];
    if withTypeC {
      if baseId !in noTypeC {
        variantId := VariantId(baseId, 3);
        ids := ids + [variantId];
        variantList := variantList + [ships.Get(variantId)];
      } else {
        variantList := variantList + [None];
      }
    }
  }

  /** Every base gets its group, and only bases get one. */
  lemma {:induction false} VariantsOfGroups(acc: LinkedMap<string, seq<Option<ShipBlueprint>>>, ships: LinkedMap<string, ShipBlueprint>,
                                           bases: seq<string>, withTypeC: bool, noTypeC: seq<string>, b: string)
    ensures var groups := VariantsOf(acc, ships, bases, withTypeC, noTypeC);
            && (b in groups.entries <==> b in acc.entries || b in bases)
            && (b in bases ==> groups.entries[b] == VariantGroup(ships, b, withTypeC, noTypeC))
            && (b !in bases && b in acc.entries ==> groups.entries[b] == acc.entries[b])
    decreases |bases|
  {
    if bases != [] {
      assert b in bases <==> b == bases[0] || b in bases[1..];
      VariantsOfGroups(acc.Put(bases[0], VariantGroup(ships, bases[0], withTypeC, noTypeC)), ships, bases[1..], withTypeC, noTypeC, b);
    }
  }

  /** An id is a player-ship id exactly when it is a variant id of some base. */
  lemma {:induction false} PlayerShipIdsMembers(bases: seq<string>, withTypeC: bool, noTypeC: seq<string>, id: string)
    ensures id in PlayerShipIdsOf(bases, withTypeC, noTypeC) <==>
            exists i :: 0 <= i < |bases| && id in VariantIds(bases[i], withTypeC, noTypeC)
    decreases |bases|
  {
    if bases != [] {
      PlayerShipIdsMembers(bases[1..], withTypeC, noTypeC, id);
      if id in PlayerShipIdsOf(bases[1..], withTypeC, noTypeC) {
        var i :| 0 <= i < |bases[1..]| && id in VariantIds(bases[1..][i], withTypeC, noTypeC);
        assert id in VariantIds(bases[i + 1], withTypeC, noTypeC);
      }
      if exists i :: 0 <= i < |bases| && id in VariantIds(bases[i], withTypeC, noTypeC) {
        var i :| 0 <= i < |bases| && id in VariantIds(bases[i], withTypeC, noTypeC);
        if i > 0 {
          assert bases[1..][i - 1] == bases[i];
        }
      }
    }
  }

  /** Player ships: the listed ids that the ship map holds, in list order. */
  function PlayerShipsOf(acc: LinkedMap<string, ShipBlueprint>, ships: LinkedMap<string, ShipBlueprint>, ids: seq<string>)
    : (r: LinkedMap<string, ShipBlueprint>)
    ensures acc.Valid() ==> r.Valid()
    decreases |ids|
  {
    if ids == [] then acc
    else PlayerShipsOf(if ids[0] in ships.entries then acc.Put(ids[0], ships.entries[ids[0]]) else acc, ships, ids[1..])
  }

  /** Auto ships: the ship map's entries, in map order, that are not player ships. */
  function AutoShipsOf(acc: LinkedMap<string, ShipBlueprint>, ships: LinkedMap<string, ShipBlueprint>,
                       player: LinkedMap<string, ShipBlueprint>, keys: seq<string>)
    : (r: LinkedMap<string, ShipBlueprint>)
    requires forall k :: k in keys ==> k in ships.entries
    ensures acc.Valid() ==> r.Valid()
    decreases |keys|
  {
    if keys == [] then acc
    else AutoShipsOf(if keys[0] !in player.entries then acc.Put(keys[0], ships.entries[keys[0]]) else acc, ships, player, keys[1..])
  }

  /** Lines 508-532: one scope's player map from the player-ship id list, then
      its auto map from the remaining ship entries. */
  method PartitionShips(ships: LinkedMap<string, ShipBlueprint>, ids: seq<string>)
    returns (player: LinkedMap<string, ShipBlueprint>, auto: LinkedMap<string, ShipBlueprint>)
    requires ships.Valid()
    ensures player == PlayerShipsOf(Empty(), ships, ids)
    ensures auto == AutoShipsOf(Empty(), ships, player, ships.keys)
  {
    player := Empty();
    var i := 0;
    while i < |ids|
      invariant 0 <= i <= |ids|
      invariant PlayerShipsOf(player, ships, ids[i..]) == PlayerShipsOf(Empty(), ships, ids)
    {
      var playerShipId := ids[i];
      assert ids[i..][0] == playerShipId && ids[i..][1..] == ids[i + 1..];
      var ship := ships.Get(playerShipId);
      if ship.Some? {
        player := player.Put(playerShipId, ship.value);
      }
      i := i + 1;
    }
    auto := Empty();
    var keys := ships.keys;
    i := 0;
    while i < |keys|
      invariant 0 <= i <= |keys|
      invariant AutoShipsOf(auto, ships, player, keys[i..]) == AutoShipsOf(Empty(), ships, player, keys)
    {
      var key := keys[i];
      assert keys[i..][0] == key && keys[i..][1..] == keys[i + 1..];
      if key !in player.entries {
        auto := auto.Put(key, ships.entries[key]);
      }
      i := i + 1;
    }
  }

  lemma {:induction false} PlayerShipsOfEntries(acc: LinkedMap<string, ShipBlueprint>, ships: LinkedMap<string, ShipBlueprint>,
                                               ids: seq<string>, k: string)
    ensures var r := PlayerShipsOf(acc, ships, ids);
            && (k in r.entries <==> k in acc.entries || (k in ids && k in ships.entries))
            && (k in ids && k in ships.entries ==> r.entries[k] == ships.entries[k])
            && (k !in ids && k in acc.entries ==> r.entries[k] == acc.entries[k])
    decreases |ids|
  {
    if ids != [] {
      assert k in ids <==> k == ids[0] || k in ids[1..];
      var acc' := if ids[0] in ships.entries then acc.Put(ids[0], ships.entries[ids[0]]) else acc;
      PlayerShipsOfEntries(acc', ships, ids[1..], k);
    }
  }

  lemma {:induction false} AutoShipsOfEntries(acc: LinkedMap<string, ShipBlueprint>, ships: LinkedMap<string, ShipBlueprint>,
                                             player: LinkedMap<string, ShipBlueprint>, keys: seq<string>, k: string)
    requires forall j :: j in keys ==> j in ships.entries
    ensures var r := AutoShipsOf(acc, ships, player, keys);
            && (k in r.entries <==> k in acc.entries || (k in keys && k !in player.entries))
            && (k in keys && k !in player.entries ==> r.entries[k] == ships.entries[k])
            && (k !in keys && k in acc.entries ==> r.entries[k] == acc.entries[k])
    decreases |keys|
  {
    if keys != [] {
      assert k in keys <==> k == keys[0] || k in keys[1..];
      var acc' := if keys[0] !in player.entries then acc.Put(keys[0], ships.entries[keys[0]]) else acc;
      AutoShipsOfEntries(acc', ships, player, keys[1..], k);
    }
  }

  /** The partition theorem: the player map is the ship map restricted to the
      listed ids, the auto map is the rest of the ship map, so the two are
      disjoint and together they are the whole ship map. */
  lemma ShipPartition(ships: LinkedMap<string, ShipBlueprint>, ids: seq<string>)
    requires ships.Valid()
    ensures var player := PlayerShipsOf(Empty(), ships, ids);
            var auto := AutoShipsOf(Empty(), ships, player, ships.keys);
            && player.Valid() && auto.Valid()
            && (forall k :: k in player.entries <==> k in ships.entries && k in ids)
            && (forall k :: k in auto.entries <==> k in ships.entries && k !in ids)
            && player.entries.Keys !! auto.entries.Keys
            && player.entries + auto.entries == ships.entries
  {
    var player := PlayerShipsOf(Empty(), ships, ids);
    var auto := AutoShipsOf(Empty(), ships, player, ships.keys);
    forall k
      ensures k in player.entries <==> k in ships.entries && k in ids
      ensures k in auto.entries <==> k in ships.entries && k !in ids
      ensures k in player.entries ==> player.entries[k] == ships.entries[k]
      ensures k in auto.entries ==> auto.entries[k] == ships.entries[k]
    {
      PlayerShipsOfEntries(Empty(), ships, ids, k);
      AutoShipsOfEntries(Empty(), ships, player, ships.keys, k);
    }
    assert player.entries + auto.entries == ships.entries;
  }
}
