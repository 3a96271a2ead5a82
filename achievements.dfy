/** Achievements: the hard-coded quest and victory achievements (lines 260-318
    of DefaultDataManager.java), the general list (lines 320-325) and the
    per-ship lists (lines 534-550). Line numbers in this module refer to that file. */
module Achievements {
  import opened Wrappers
  import opened LinkedMaps
  import opened Records
  import opened Overlay

  datatype Flag = Quest | Victory

  /** `setQuest(true)` / `setVictory(true)`. */
  function SetFlag(a: Achievement, flag: Flag): Achievement {
    match flag
    case Quest => a.(quest := true)
    case Victory => a.(victory := true)
  }

  /** The placeholder created when no achievement is stored under the base id. */
  function Placeholder(synthId: string, baseId: string, flag: Flag): Achievement {
    var description := match flag
      case Quest => "Dummy quest achievement."
      case Victory => "Dummy victory achievement.";
    Achievement(synthId, synthId, description, None, Some(baseId), false, false)
  }

  /** One table entry (baseId, synthId). The lookup is by the BASE id: an
      achievement stored under it is flagged in place; otherwise a flagged
      placeholder is stored under the synthesized id. */
  function SynthesizeOne(m: LinkedMap<string, Achievement>, baseId: string, synthId: string, flag: Flag)
    : LinkedMap<string, Achievement>
  {
    if baseId in m.entries then m.Put(baseId, SetFlag(m.entries[baseId], flag))
    else m.Put(synthId, SetFlag(Placeholder(synthId, baseId, flag), flag))
  }

  /** The table's entries applied in order. */
  function Synthesize(m: LinkedMap<string, Achievement>, table: seq<(string, string)>, flag: Flag)
    : (r: LinkedMap<string, Achievement>)
    ensures m.Valid() ==> r.Valid()
    ensures KeyedBy(m, AchievementId) ==> KeyedBy(r, AchievementId)
    ensures m.entries.Keys <= r.entries.Keys
    decreases |table|
  {
    if table == [] then m
    else Synthesize(SynthesizeOne(m, table[0].0, table[0].1, flag), table[1..], flag)
  }

  /** Lines 280-292 and 306-318: one loop per table. */
  method AddShipAchievements(m: LinkedMap<string, Achievement>, table: seq<(string, string)>, flag: Flag)
    returns (r: LinkedMap<string, Achievement>)
    ensures r == Synthesize(m, table, flag)
  {
    r := m;
    var i := 0;
    while i < |table|
      invariant 0 <= i <= |table|
      invariant Synthesize(r, table[i..], flag) == Synthesize(m, table, flag)
    {
      SynthesizeStep(r, table, flag, i);
      r := AddShipAchievement(r, table[i].0, table[i].1, flag);
      i := i + 1;
    }
  }

  /** One step of those loops. */
  lemma SynthesizeStep(m: LinkedMap<string, Achievement>, table: seq<(string, string)>, flag: Flag, i: nat)
    requires i < |table|
    ensures Synthesize(m, table[i..], flag) == Synthesize(SynthesizeOne(m, table[i].0, table[i].1, flag), table[i + 1..], flag)
  {
    assert table[i..][0] == table[i] && table[i..][1..] == table[i + 1..];
  }

  /** The body of those loops for one entry (baseId, synthId). */
  method AddShipAchievement(m: LinkedMap<string, Achievement>, baseId: string, synthId: string, flag: Flag)
    returns (r: LinkedMap<string, Achievement>)
    ensures r == SynthesizeOne(m, baseId, synthId, flag)
  {
    var ach := m.Get(baseId);
    if ach.None? {
      ach := Some(Placeholder(synthId, baseId, flag));
      r := m.Put(synthId, SetFlag(ach.value, flag));
    } else {
      r := m.Put(baseId, SetFlag(ach.value, flag));
    }
  }

  /** Synthesis never creates a general achievement: whatever has no ship id
      afterwards was stored under the same key, without a ship id, before. */
  lemma {:induction false} SynthesizeAddsNoGeneral(m: LinkedMap<string, Achievement>, table: seq<(string, string)>, flag: Flag)
    ensures var r := Synthesize(m, table, flag);
            forall k :: k in r.entries && r.entries[k].shipId.None? ==> k in m.entries && m.entries[k].shipId.None?
    decreases |table|
  {
    if table != [] {
      var m' := SynthesizeOne(m, table[0].0, table[0].1, flag);
      SynthesizeAddsNoGeneral(m', table[1..], flag);
      SynthesizeOneAddsNoGeneral(m, table[0].0, table[0].1, flag);
    }
  }

  /** The same for one table entry: the value it stores is the flagged
      achievement of the base id or a placeholder, which names the base ship. */
  lemma SynthesizeOneAddsNoGeneral(m: LinkedMap<string, Achievement>, baseId: string, synthId: string, flag: Flag)
    ensures var r := SynthesizeOne(m, baseId, synthId, flag);
            forall k :: k in r.entries && r.entries[k].shipId.None? ==> k in m.entries && m.entries[k].shipId.None?
  {
  }

  function BaseIds(table: seq<(string, string)>): (bs: seq<string>)
    ensures |bs| == |table| && forall i :: 0 <= i < |table| ==> bs[i] == table[i].0
  {
    seq(|table|, i requires 0 <= i < |table| => table[i].0)
  }

  function SynthIds(table: seq<(string, string)>): (ss: seq<string>)
    ensures |ss| == |table| && forall i :: 0 <= i < |table| ==> ss[i] == table[i].1
  {
    seq(|table|, i requires 0 <= i < |table| => table[i].1)
  }

  /** The shape of the hard-coded tables: base ids distinct, synthesized ids
      distinct, and no synthesized id is a base id. */
  ghost predicate TableWellFormed(table: seq<(string, string)>) {
    && Distinct(BaseIds(table))
    && Distinct(SynthIds(table))
    && forall i, j :: 0 <= i < |table| && 0 <= j < |table| ==> table[i].0 != table[j].1
  }

  lemma TableTail(table: seq<(string, string)>)
    requires table != [] && TableWellFormed(table)
    ensures TableWellFormed(table[1..])
    ensures forall i :: 0 < i < |table| ==> table[i].0 != table[0].0 && table[i].1 != table[0].1
  {
    var t := table[1..];
    assert forall i :: 0 <= i < |t| ==> BaseIds(t)[i] == BaseIds(table)[i + 1] && SynthIds(t)[i] == SynthIds(table)[i + 1];
    forall i | 0 < i < |table| ensures table[i].0 != table[0].0 && table[i].1 != table[0].1 {
      assert BaseIds(table)[0] != BaseIds(table)[i];
      assert SynthIds(table)[0] != SynthIds(table)[i];
    }
  }

  /** Keys the table does not mention keep their achievement. */
  lemma {:induction false} SynthesizeOthers(m: LinkedMap<string, Achievement>, table: seq<(string, string)>, flag: Flag, k: string)
    requires forall i :: 0 <= i < |table| ==> table[i].0 != k && table[i].1 != k
    ensures var r := Synthesize(m, table, flag);
            && (k in r.entries <==> k in m.entries)
            && (k in m.entries ==> k in r.entries && r.entries[k] == m.entries[k])
    decreases |table|
  {
    if table != [] {
      var m' := SynthesizeOne(m, table[0].0, table[0].1, flag);
      assert Synthesize(m, table, flag) == Synthesize(m', table[1..], flag);
      SynthesizeOneOthers(m, table[0].0, table[0].1, flag, k);
      assert forall i :: 0 <= i < |table[1..]| ==> table[1..][i] == table[i + 1];
      SynthesizeOthers(m', table[1..], flag, k);
    }
  }

  /** The synthesis theorem for one table entry (base, synth): an achievement
      stored under base is flagged and synth is left alone; otherwise a flagged
      placeholder for base is stored under synth, replacing anything stored
      there, and base stays absent. */
  lemma {:induction false} SynthesizeEntry(m: LinkedMap<string, Achievement>, table: seq<(string, string)>, flag: Flag, i: nat)
    requires TableWellFormed(table) && i < |table|
    ensures var r := Synthesize(m, table, flag);
            var (baseId, synthId) := table[i];
            && (baseId in m.entries ==> baseId in r.entries && r.entries[baseId] == SetFlag(m.entries[baseId], flag))
            && (baseId in m.entries ==> (synthId in r.entries <==> synthId in m.entries))
            && (baseId in m.entries && synthId in m.entries ==> synthId in r.entries && r.entries[synthId] == m.entries[synthId])
            && (baseId !in m.entries ==> synthId in r.entries && r.entries[synthId] == SetFlag(Placeholder(synthId, baseId, flag), flag))
            && (baseId !in m.entries ==> baseId !in r.entries)
    decreases |table|
  {
    if i == 0 {
      SynthesizeHead(m, table, flag);
    } else {
      TableTail(table);
      var (b0, s0) := table[0];
      var (b, s) := table[i];
      assert b != s0 && s != b0;
      var m' := SynthesizeOne(m, b0, s0, flag);
      assert Synthesize(m, table, flag) == Synthesize(m', table[1..], flag);
      SynthesizeEntry(m', table[1..], flag, i - 1);
      assert table[1..][i - 1] == table[i];
      SynthesizeOneOthers(m, b0, s0, flag, b);
      SynthesizeOneOthers(m, b0, s0, flag, s);
    }
  }

  /** The quest pass then the victory pass (lines 280-292, then 306-318), for a
      base id both tables name: a stored achievement ends with both flags set;
      a missing one stays missing, and each pass stores its own placeholder. */
  lemma QuestThenVictory(m: LinkedMap<string, Achievement>, quest: seq<(string, string)>, victory: seq<(string, string)>, i: nat, j: nat)
    requires TableWellFormed(quest) && TableWellFormed(victory)
    requires i < |quest| && j < |victory| && quest[i].0 == victory[j].0
    requires forall k :: 0 <= k < |victory| ==> victory[k].0 != quest[i].1 && victory[k].1 != quest[i].1
    ensures var r := Synthesize(Synthesize(m, quest, Quest), victory, Victory);
            var (baseId, questId, victoryId) := (quest[i].0, quest[i].1, victory[j].1);
            && (baseId in m.entries ==> baseId in r.entries && r.entries[baseId] == m.entries[baseId].(quest := true, victory := true))
            && (baseId !in m.entries ==> baseId !in r.entries)
            && (baseId !in m.entries ==> questId in r.entries && r.entries[questId] == SetFlag(Placeholder(questId, baseId, Quest), Quest))
            && (baseId !in m.entries ==> victoryId in r.entries && r.entries[victoryId] == SetFlag(Placeholder(victoryId, baseId, Victory), Victory))
  {
    var q := Synthesize(m, quest, Quest);
    SynthesizeEntry(m, quest, Quest, i);
    SynthesizeEntry(q, victory, Victory, j);
    SynthesizeOthers(q, victory, Victory, quest[i].1);
  }

  /** One entry leaves every other key alone. */
  lemma SynthesizeOneOthers(m: LinkedMap<string, Achievement>, baseId: string, synthId: string, flag: Flag, k: string)
    requires k != baseId && k != synthId
    ensures var r := SynthesizeOne(m, baseId, synthId, flag);
            && (k in r.entries <==> k in m.entries)
            && (k in m.entries ==> k in r.entries && r.entries[k] == m.entries[k])
  {
  }

  /** The first entry: no later entry mentions its ids, so what it stores stays. */
  lemma SynthesizeHead(m: LinkedMap<string, Achievement>, table: seq<(string, string)>, flag: Flag)
    requires TableWellFormed(table) && table != []
    ensures var r := Synthesize(m, table, flag);
            var (baseId, synthId) := table[0];
            && (baseId in m.entries ==> baseId in r.entries && r.entries[baseId] == SetFlag(m.entries[baseId], flag))
            && (baseId in m.entries ==> (synthId in r.entries <==> synthId in m.entries))
            && (baseId in m.entries && synthId in m.entries ==> synthId in r.entries && r.entries[synthId] == m.entries[synthId])
            && (baseId !in m.entries ==> synthId in r.entries && r.entries[synthId] == SetFlag(Placeholder(synthId, baseId, flag), flag))
            && (baseId !in m.entries ==> baseId !in r.entries)
  {
    var (b0, s0) := table[0];
    var m' := SynthesizeOne(m, b0, s0, flag);
    TableTail(table);
    var t := table[1..];
    assert forall j :: 0 <= j < |t| ==> t[j].0 != b0 && t[j].1 != b0 && t[j].0 != s0 && t[j].1 != s0 by {
      forall j | 0 <= j < |t| ensures t[j].0 != b0 && t[j].1 != b0 && t[j].0 != s0 && t[j].1 != s0 {
        assert t[j] == table[j + 1];
      }
    }
    SynthesizeOthers(m', t, flag, b0);
    SynthesizeOthers(m', t, flag, s0);
  }

  // ------------------------------------------------------- general and per-ship

  /** The achievements whose ship id is `shipId`, in order. */
  function WithShipId(items: seq<Achievement>, shipId: Option<string>): (r: seq<Achievement>)
    ensures forall i :: 0 <= i < |r| ==> r[i].shipId == shipId
    ensures |r| <= |items|
    decreases |items|
  {
    if items == [] then []
    else (if items[0].shipId == shipId then [items[0]] else []) + WithShipId(items[1..], shipId)
  }

  lemma {:induction false} WithShipIdMembers(items: seq<Achievement>, shipId: Option<string>, a: Achievement)
    ensures a in WithShipId(items, shipId) <==> a in items && a.shipId == shipId
    decreases |items|
  {
    if items != [] {
      WithShipIdMembers(items[1..], shipId, a);
      assert a in items <==> a == items[0] || a in items[1..];
    }
  }

  /** Selecting keeps distinct achievements distinct: each appears at most once. */
  lemma {:induction false} WithShipIdDistinct(items: seq<Achievement>, shipId: Option<string>)
    requires Distinct(items)
    ensures Distinct(WithShipId(items, shipId))
    decreases |items|
  {
    if items != [] {
      var rest := items[1..];
      assert Distinct(rest) by {
        forall i, j | 0 <= i < j < |rest| ensures rest[i] != rest[j] {
          assert rest[i] == items[i + 1] && rest[j] == items[j + 1];
        }
      }
      WithShipIdDistinct(rest, shipId);
      WithShipIdMembers(rest, shipId, items[0]);
      assert items[0] !in rest by {
        forall i | 0 <= i < |rest| ensures rest[i] != items[0] {
          assert rest[i] == items[i + 1];
        }
      }
    }
  }

  /** One step of the selection, appended to what was collected so far. */
  lemma CollectStep(items: seq<Achievement>, shipId: Option<string>, i: nat, r: seq<Achievement>)
    requires i < |items|
    ensures var kept := if items[i].shipId == shipId then [items[i]] else [];
            r + WithShipId(items[i..], shipId) == (r + kept) + WithShipId(items[i + 1..], shipId)
  {
    assert items[i..][0] == items[i] && items[i..][1..] == items[i + 1..];
  }

  /** Lines 320-325 and the inner loop of lines 536-549: a pass over the
      achievement map's values, keeping those with the given ship id. */
  method CollectByShipId(items: seq<Achievement>, shipId: Option<string>) returns (r: seq<Achievement>)
    ensures r == WithShipId(items, shipId)
  {
    r := [];
    var i := 0;
    while i < |items|
      invariant 0 <= i <= |items|
      invariant r + WithShipId(items[i..], shipId) == WithShipId(items, shipId)
    {
      CollectStep(items, shipId, i, r);
      if items[i].shipId == shipId {
        r := r + [items[i]];
      } else {
        assert r + [] == r;
      }
      i := i + 1;
    }
  }

  /** The per-ship lists: each player-ship key maps to the achievements whose
      ship id is that key. */
  function ShipAchievementsOf(acc: map<string, seq<Achievement>>, keys: seq<string>, items: seq<Achievement>)
    : map<string, seq<Achievement>>
    decreases |keys|
  {
    if keys == [] then acc
    else ShipAchievementsOf(acc[keys[0] := WithShipId(items, Some(keys[0]))], keys[1..], items)
  }

  /** Lines 534-550: one list per player-ship entry (Type-A, Type-B and Type-C
      alike), keyed here by the ship's id. */
  method BuildShipAchievements(playerShipIds: seq<string>, items: seq<Achievement>) returns (r: map<string, seq<Achievement>>)
    ensures r == ShipAchievementsOf(map[], playerShipIds, items)
  {
    r := map[];
    var i := 0;
    while i < |playerShipIds|
      invariant 0 <= i <= |playerShipIds|
      invariant ShipAchievementsOf(r, playerShipIds[i..], items) == ShipAchievementsOf(map[], playerShipIds, items)
    {
      var id := playerShipIds[i];
      assert playerShipIds[i..][0] == id && playerShipIds[i..][1..] == playerShipIds[i + 1..];
      var shipAchs := CollectByShipId(items, Some(id));
      r := r[id := shipAchs];
      i := i + 1;
    }
  }

  lemma {:induction false} ShipAchievementsOfEntries(acc: map<string, seq<Achievement>>, keys: seq<string>, items: seq<Achievement>, k: string)
    ensures var r := ShipAchievementsOf(acc, keys, items);
            && (k in r <==> k in acc || k in keys)
            && (k in keys ==> r[k] == WithShipId(items, Some(k)))
            && (k !in keys && k in acc ==> r[k] == acc[k])
    decreases |keys|
  {
    if keys != [] {
      assert k in keys <==> k == keys[0] || k in keys[1..];
      ShipAchievementsOfEntries(acc[keys[0] := WithShipId(items, Some(keys[0]))], keys[1..], items, k);
    }
  }

  /** The partition theorem. The general list is exactly the achievements
      without a ship id; each player ship's list is exactly the achievements
      with that ship's id; so no general achievement is in a ship list, and
      every achievement whose ship id is a player ship is in that ship's list. */
  lemma AchievementPartition(keys: seq<string>, items: seq<Achievement>, a: Achievement, k: string)
    ensures var general := WithShipId(items, None);
            var perShip := ShipAchievementsOf(map[], keys, items);
            && (a in general <==> a in items && a.shipId.None?)
            && (k in perShip <==> k in keys)
            && (k in perShip ==> (a in perShip[k] <==> a in items && a.shipId == Some(k)))
            && (k in perShip && a in perShip[k] ==> a !in general)
  {
    WithShipIdMembers(items, None, a);
    WithShipIdMembers(items, Some(k), a);
    ShipAchievementsOfEntries(map[], keys, items, k);
  }
}
