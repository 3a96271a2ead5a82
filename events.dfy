/** `getEventById` / `getEventListById` (lines 997-1036 of DefaultDataManager.java):
    every events file of the scope is searched and the last match is kept. */
module Events {
  import opened Wrappers
  import opened LinkedMaps
  import opened Records

  /** The match of the last file in `files` that defines `id`, or `acc` when none does. */
  function LastMatch<E>(acc: Option<E>, files: seq<Encounters>, lookup: Encounters -> map<string, E>, id: string): Option<E>
    decreases |files|
  {
    if files == [] then acc
    else LastMatch(if id in lookup(files[0]) then Some(lookup(files[0])[id]) else acc, files[1..], lookup, id)
  }

  /** The loop of lines 1006-1011 (and 1030-1035): a later file's match overwrites the result. */
  method FindLast<E>(files: LinkedMap<string, Encounters>, lookup: Encounters -> map<string, E>, id: string) returns (r: Option<E>)
    requires files.Valid()
    ensures r == LastMatch(None, files.Items(), lookup, id)
  {
    var fs := files.Items();
    r := None;
    var i := 0;
    while i < |files.keys|
      invariant 0 <= i <= |files.keys|
      invariant LastMatch(r, fs[i..], lookup, id) == LastMatch(None, fs, lookup, id)
    {
      assert fs[i..][0] == fs[i] && fs[i..][1..] == fs[i + 1..];
      var encounters := files.entries[files.keys[i]];
      var found := lookup(encounters);
      if id in found {
        r := Some(found[id]);
      }
      i := i + 1;
    }
  }

  /** Last match wins: the search finds nothing exactly when no file defines
      `id`, and otherwise yields the definition in the last file that has one. */
  lemma {:induction false} LastMatchWins<E>(acc: Option<E>, files: seq<Encounters>, lookup: Encounters -> map<string, E>, id: string)
    ensures (forall i :: 0 <= i < |files| ==> id !in lookup(files[i])) ==> LastMatch(acc, files, lookup, id) == acc
    ensures forall i :: 0 <= i < |files| && id in lookup(files[i]) && (forall j :: i < j < |files| ==> id !in lookup(files[j])) ==>
      LastMatch(acc, files, lookup, id) == Some(lookup(files[i])[id])
    decreases |files|
  {
    if files != [] {
      var acc' := if id in lookup(files[0]) then Some(lookup(files[0])[id]) else acc;
      var rest := files[1..];
      assert LastMatch(acc, files, lookup, id) == LastMatch(acc', rest, lookup, id);
      LastMatchWins(acc', rest, lookup, id);
      assert forall j :: 0 <= j < |rest| ==> rest[j] == files[j + 1];
      forall i | 0 <= i < |files| && id in lookup(files[i]) && (forall j :: i < j < |files| ==> id !in lookup(files[j]))
        ensures LastMatch(acc, files, lookup, id) == Some(lookup(files[i])[id])
      {
        if i == 0 {
          assert forall j :: 0 <= j < |rest| ==> id !in lookup(rest[j]);
        } else {
          assert rest[i - 1] == files[i];
          assert forall j :: i - 1 < j < |rest| ==> id !in lookup(rest[j]);
        }
      }
    }
  }
}
