/** The crew-name pools (lines 556-563 of DefaultDataManager.java). */
module CrewNames {
  import opened Wrappers
  import opened Records

  /** `"male".equals(list.getSex())`: a list without a sex is not male. */
  predicate IsMale(l: CrewNameList) {
    l.sex == Some("male")
  }

  function MalePool(lists: seq<CrewNameList>): seq<CrewName>
    decreases |lists|
  {
    if lists == [] then [] else (if IsMale(lists[0]) then lists[0].names else []) + MalePool(lists[1..])
  }

  function FemalePool(lists: seq<CrewNameList>): seq<CrewName>
    decreases |lists|
  {
    if lists == [] then [] else (if IsMale(lists[0]) then [] else lists[0].names) + FemalePool(lists[1..])
  }

  /** Every name of every list, in order. */
  function AllNames(lists: seq<CrewNameList>): seq<CrewName>
    decreases |lists|
  {
    if lists == [] then [] else lists[0].names + AllNames(lists[1..])
  }

  /** Lines 556-563: one pass over the lists, appending each list's names to one pool. */
  method SplitCrewNames(lists: seq<CrewNameList>) returns (male: seq<CrewName>, female: seq<CrewName>)
    ensures male == MalePool(lists)
    ensures female == FemalePool(lists)
  {
    male, female := [], [];
    var i := 0;
    while i < |lists|
      invariant 0 <= i <= |lists|
      invariant male + MalePool(lists[i..]) == MalePool(lists)
      invariant female + FemalePool(lists[i..]) == FemalePool(lists)
    {
      var crewNameList := lists[i];
      assert lists[i..][0] == crewNameList && lists[i..][1..] == lists[i + 1..];
      if IsMale(crewNameList) {
        assert male + MalePool(lists[i..]) == (male + crewNameList.names) + MalePool(lists[i + 1..]);
        male := male + crewNameList.names;
      } else {
        assert female + FemalePool(lists[i..]) == (female + crewNameList.names) + FemalePool(lists[i + 1..]);
        female := female + crewNameList.names;
      }
      i := i + 1;
    }
  }

  /** The two pools split the names: each name occurrence lands in exactly one pool. */
  lemma {:induction false} PoolsPartition(lists: seq<CrewNameList>)
    ensures multiset(MalePool(lists)) + multiset(FemalePool(lists)) == multiset(AllNames(lists))
    ensures |MalePool(lists)| + |FemalePool(lists)| == |AllNames(lists)|
    decreases |lists|
  {
    if lists != [] {
      PoolsPartition(lists[1..]);
    }
  }

  /** A name is in the male pool exactly when some male list holds it. */
  lemma {:induction false} MalePoolMembers(lists: seq<CrewNameList>, n: CrewName)
    ensures n in MalePool(lists) <==> exists i :: 0 <= i < |lists| && IsMale(lists[i]) && n in lists[i].names
    decreases |lists|
  {
    if lists != [] {
      MalePoolMembers(lists[1..], n);
      if exists i :: 0 <= i < |lists| && IsMale(lists[i]) && n in lists[i].names {
        var i :| 0 <= i < |lists| && IsMale(lists[i]) && n in lists[i].names;
        if i > 0 {
          assert lists[1..][i - 1] == lists[i];
        }
      }
      if exists i :: 0 <= i < |lists[1..]| && IsMale(lists[1..][i]) && n in lists[1..][i].names {
        var i :| 0 <= i < |lists[1..]| && IsMale(lists[1..][i]) && n in lists[1..][i].names;
        assert lists[i + 1] == lists[1..][i];
      }
    }
  }

  /** A name is in the female pool exactly when some non-male list (a missing
      sex included) holds it. */
  lemma {:induction false} FemalePoolMembers(lists: seq<CrewNameList>, n: CrewName)
    ensures n in FemalePool(lists) <==> exists i :: 0 <= i < |lists| && !IsMale(lists[i]) && n in lists[i].names
    decreases |lists|
  {
    if lists != [] {
      FemalePoolMembers(lists[1..], n);
      if exists i :: 0 <= i < |lists| && !IsMale(lists[i]) && n in lists[i].names {
        var i :| 0 <= i < |lists| && !IsMale(lists[i]) && n in lists[i].names;
        if i > 0 {
          assert lists[1..][i - 1] == lists[i];
        }
      }
      if exists i :: 0 <= i < |lists[1..]| && !IsMale(lists[1..][i]) && n in lists[1..][i].names {
        var i :| 0 <= i < |lists[1..]| && !IsMale(lists[1..][i]) && n in lists[1..][i].names;
        assert lists[i + 1] == lists[1..][i];
      }
    }
  }
}
