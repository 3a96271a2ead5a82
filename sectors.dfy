/** The sector-type override resolver (lines 236-250 of DefaultDataManager.java):
    a sector type whose id is `OVERRIDE_X` replaces sector type X in the dlc view only. */
module Sectors {
  import opened LinkedMaps
  import opened Records
  import opened Overlay

  const OverridePrefix: string := "OVERRIDE_"

  /** The characters Java's regex `.` does not match (no DOTALL flag). */
  predicate IsLineTerminator(c: char) {
    c == '\n' || c == '\r' || c == '\U{0085}' || c == '\U{2028}' || c == '\U{2029}'
  }

  /** `^OVERRIDE_(.*)` matches the whole id. */
  predicate IsOverride(id: string) {
    OverridePrefix <= id && NoLineTerminator(id[|OverridePrefix|..])
  }

  predicate NoLineTerminator(s: string) {
    forall i :: 0 <= i < |s| ==> !IsLineTerminator(s[i])
  }

  /** The regex's group 1: the id being overridden. */
  function OverriddenId(id: string): string
    requires IsOverride(id)
  {
    id[|OverridePrefix|..]
  }

  /** The key a sector type is stored under in the dlc view. */
  function SectorKey(t: SectorType): string {
    if IsOverride(t.id) then OverriddenId(t.id) else t.id
  }

  /** A sector type of the first pass: its id is not an override id. */
  predicate IsPlain(t: SectorType) {
    !IsOverrideRecord(t)
  }

  /** A sector type of the second pass: its id matches the override pattern. */
  predicate IsOverrideRecord(t: SectorType) {
    IsOverride(t.id)
  }

  /** The sector types of the first pass, in order. */
  function Plain(ts: seq<SectorType>): (ps: seq<SectorType>)
    ensures forall i :: 0 <= i < |ps| ==> IsPlain(ps[i])
    ensures |ps| <= |ts|
  {
    if ts == [] then []
    else (if IsPlain(ts[0]) then [ts[0]] else []) + Plain(ts[1..])
  }

  /** The sector types of the second pass, in order. */
  function Overrides(ts: seq<SectorType>): (os: seq<SectorType>)
    ensures forall i :: 0 <= i < |os| ==> IsOverrideRecord(os[i])
    ensures |os| <= |ts|
  {
    if ts == [] then []
    else (if IsOverrideRecord(ts[0]) then [ts[0]] else []) + Overrides(ts[1..])
  }

  /** Every sector type goes to exactly one of the two passes. */
  lemma {:induction false} PassesPartition(ts: seq<SectorType>)
    ensures |Plain(ts)| + |Overrides(ts)| == |ts|
    ensures multiset(Plain(ts)) + multiset(Overrides(ts)) == multiset(ts)
  {
    if ts != [] {
      PassesPartition(ts[1..]);
      assert ts == [ts[0]] + ts[1..];
    }
  }

  /** Lines 236-250: the two passes over the decoded sector types. */
  method ResolveSectorTypes(ts: seq<SectorType>) returns (std: LinkedMap<string, SectorType>, dlc: LinkedMap<string, SectorType>)
    ensures std == PutAll(Empty(), Plain(ts), RecordId)
    ensures dlc == PutAll(std, Overrides(ts), SectorKey)
  {
    std := PlainPass(ts);
    dlc := OverridePass(std, ts);
  }

  /** One step of the first pass. */
  lemma PlainStep(ts: seq<SectorType>, i: nat)
    requires i < |ts|
    ensures Plain(ts[i..]) == (if IsPlain(ts[i]) then [ts[i]] else []) + Plain(ts[i + 1..])
  {
    assert ts[i..][0] == ts[i] && ts[i..][1..] == ts[i + 1..];
  }

  /** One step of the second pass. */
  lemma OverridesStep(ts: seq<SectorType>, i: nat)
    requires i < |ts|
    ensures Overrides(ts[i..]) == (if IsOverrideRecord(ts[i]) then [ts[i]] else []) + Overrides(ts[i + 1..])
  {
    assert ts[i..][0] == ts[i] && ts[i..][1..] == ts[i + 1..];
  }

  /** Lines 240-244: plain sector types go into both views, so after this pass
      the two views are equal. */
  method PlainPass(ts: seq<SectorType>) returns (std: LinkedMap<string, SectorType>)
    ensures std == PutAll(Empty(), Plain(ts), RecordId)
  {
    std := Empty();
    var i := 0;
    while i < |ts|
      invariant 0 <= i <= |ts|
      invariant PutAll(std, Plain(ts[i..]), RecordId) == PutAll(Empty(), Plain(ts), RecordId)
    {
      var t := ts[i];
      PlainStep(ts, i);
      if !IsOverride(t.id) {
        PutAllCons(std, t, Plain(ts[i + 1..]), RecordId);
        std := std.Put(t.id, t);
      } else {
        assert [] + Plain(ts[i + 1..]) == Plain(ts[i + 1..]);
      }
      i := i + 1;
    }
  }

  /** Lines 245-250: each override record goes into the dlc view under the id it overrides. */
  method OverridePass(std: LinkedMap<string, SectorType>, ts: seq<SectorType>) returns (dlc: LinkedMap<string, SectorType>)
    ensures dlc == PutAll(std, Overrides(ts), SectorKey)
  {
    dlc := std;
    var i := 0;
    while i < |ts|
      invariant 0 <= i <= |ts|
      invariant PutAll(dlc, Overrides(ts[i..]), SectorKey) == PutAll(std, Overrides(ts), SectorKey)
    {
      var t := ts[i];
      OverridesStep(ts, i);
      if IsOverride(t.id) {
        var baseId := OverriddenId(t.id);
        PutAllCons(dlc, t, Overrides(ts[i + 1..]), SectorKey);
        dlc := dlc.Put(baseId, t);
      } else {
        assert [] + Overrides(ts[i + 1..]) == Overrides(ts[i + 1..]);
      }
      i := i + 1;
    }
  }

  /** The std half of the override theorem: the std view holds no override
      record and keeps every plain sector type under its own id, the last one
      with that id winning. */
  lemma {:induction false} SectorStd(ts: seq<SectorType>, k: string)
    ensures var std := PutAll(Empty(), Plain(ts), RecordId);
            var plain := Plain(ts);
            && std.Valid()
            && KeyedBy(std, SectorKey)
            && (k in std.entries ==> !IsOverride(std.entries[k].id) && std.entries[k].id == k)
            && (k in std.entries <==> k in KeysOf(plain, RecordId))
            && (forall i :: 0 <= i < |plain| && plain[i].id == k && k !in KeysOf(plain[i + 1..], RecordId) ==>
                  k in std.entries && std.entries[k] == plain[i])
  {
    var plain := Plain(ts);
    var std := PutAll(Empty(), plain, RecordId);
    PutAllKeeps(Empty(), plain, RecordId, IsPlain);
    assert KeyedBy(std, SectorKey) by {
      forall j | j in std.entries ensures SectorKey(std.entries[j]) == j {
        assert IsPlain(std.entries[j]);
      }
    }
    PutAllLastWins(Empty(), plain, RecordId, k);
    if k in std.entries {
      assert IsPlain(std.entries[k]);
    }
  }

  /** The dlc half: the dlc view holds the std ids and more, the last
      `OVERRIDE_X` record under X, and otherwise the std view's record. */
  lemma {:induction false} SectorDlc(ts: seq<SectorType>, k: string)
    ensures var std := PutAll(Empty(), Plain(ts), RecordId);
            var dlc := PutAll(std, Overrides(ts), SectorKey);
            var overrides := Overrides(ts);
            && dlc.Valid()
            && std.entries.Keys <= dlc.entries.Keys
            && (k in dlc.entries ==> SectorKey(dlc.entries[k]) == k)
            && (k in dlc.entries <==> k in std.entries || k in KeysOf(overrides, SectorKey))
            && (k in std.entries && k !in KeysOf(overrides, SectorKey) ==> k in dlc.entries && dlc.entries[k] == std.entries[k])
            && (forall i :: 0 <= i < |overrides| && SectorKey(overrides[i]) == k && k !in KeysOf(overrides[i + 1..], SectorKey) ==>
                  k in dlc.entries && dlc.entries[k] == overrides[i] && IsOverride(dlc.entries[k].id))
  {
    var std := PutAll(Empty(), Plain(ts), RecordId);
    SectorStd(ts, k);
    PutAllLastWins(std, Overrides(ts), SectorKey, k);
  }
}
