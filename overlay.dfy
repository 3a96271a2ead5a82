/** The overlay merge: loading the declared files, splitting them into the
    std (baseline) and dlc (expanded) file collections, and merging each
    category's records with last-writer-wins. Line numbers refer to
    DefaultDataManager.java. */
module Overlay {
  import opened Wrappers
  import opened LinkedMaps

  /** What the archive yields for one inner path. */
  datatype Fetch<T> = Absent | Malformed | Parsed(value: T)

  /** Why construction fails: the packs are missing, or a required file is
      missing or cannot be decoded. */
  datatype LoadError = PacksMissing | FileMissing(fileName: string) | FileMalformed(fileName: string)

  /** Category files are addressed as `data/<fileName>`. */
  function DataPath(fileName: string): string {
    "data/" + fileName
  }

  // ---------------------------------------------------------------- loading

  /** Loads `names` in order into `acc`, keyed by file name. An absent file is
      skipped when `optional` and fatal otherwise; a file that does not decode
      is fatal. */
  function LoadFiles<T>(acc: LinkedMap<string, T>, names: seq<string>, archive: string -> Fetch<T>, optional: bool)
    : (r: Result<LinkedMap<string, T>, LoadError>)
    ensures acc.Valid() && r.Success? ==> r.value.Valid()
    ensures r.Success? ==> acc.entries.Keys <= r.value.entries.Keys
    decreases |names|
  {
    if names == [] then Success(acc)
    else
      match archive(DataPath(names[0]))
      case Absent =>
        if optional then LoadFiles(acc, names[1..], archive, optional)
        else Failure(FileMissing(names[0]))
      case Malformed => Failure(FileMalformed(names[0]))
      case Parsed(t) => LoadFiles(acc.Put(names[0], t), names[1..], archive, optional)
  }

  ghost predicate Loadable<T>(names: seq<string>, archive: string -> Fetch<T>, optional: bool) {
    forall n :: n in names ==>
      && !archive(DataPath(n)).Malformed?
      && (optional || !archive(DataPath(n)).Absent?)
  }

  /** Loading succeeds exactly when no file is malformed and no required file is
      absent; then every present file is stored under its name with its decoded
      content, and nothing else is added. */
  lemma {:induction false} LoadFilesOutcome<T>(acc: LinkedMap<string, T>, names: seq<string>, archive: string -> Fetch<T>, optional: bool)
    ensures LoadFiles(acc, names, archive, optional).Success? <==> Loadable(names, archive, optional)
    ensures LoadFiles(acc, names, archive, optional).Success? ==>
      var m := LoadFiles(acc, names, archive, optional).value;
      && (forall n :: n in names && archive(DataPath(n)).Parsed? ==>
            n in m.entries && m.entries[n] == archive(DataPath(n)).value)
      && (forall n :: n in m.entries ==> n in acc.entries || (n in names && archive(DataPath(n)).Parsed?))
      && (forall n :: n in m.entries && n !in names ==> m.entries[n] == acc.entries[n])
    decreases |names|
  {
    if names != [] {
      var n0 := names[0];
      assert forall n :: n in names <==> n == n0 || n in names[1..];
      match archive(DataPath(n0))
      case Absent =>
        LoadFilesOutcome(acc, names[1..], archive, optional);
      case Malformed =>
      case Parsed(t) =>
        var acc' := acc.Put(n0, t);
        LoadFilesOutcome(acc', names[1..], archive, optional);
        if LoadFiles(acc, names, archive, optional).Success? {
          var m := LoadFiles(acc, names, archive, optional).value;
          assert m == LoadFiles(acc', names[1..], archive, optional).value;
          assert n0 in m.entries && m.entries[n0] == t by {
            if n0 !in names[1..] {
              assert m.entries[n0] == acc'.entries[n0];
            }
          }
        }
    }
  }

  /** Lines 159-219: the loading loop; it stops at the first failure. */
  method ReadFiles<T>(acc: LinkedMap<string, T>, names: seq<string>, archive: string -> Fetch<T>, optional: bool)
    returns (r: Result<LinkedMap<string, T>, LoadError>)
    ensures r == LoadFiles(acc, names, archive, optional)
  {
    var m := acc;
    var i := 0;
    while i < |names|
      invariant 0 <= i <= |names|
      invariant LoadFiles(m, names[i..], archive, optional) == LoadFiles(acc, names, archive, optional)
    {
      var name := names[i];
      assert names[i..][0] == name && names[i..][1..] == names[i + 1..];
      var fetched := archive(DataPath(name));
      match fetched {
        case Absent =>
          if !optional {
            return Failure(FileMissing(name));
          }
        case Malformed =>
          return Failure(FileMalformed(name));
        case Parsed(t) =>
          m := m.Put(name, t);
      }
      i := i + 1;
    }
    return Success(m);
  }

  // ---------------------------------------------------------------- scoping

  /** Copies the loaded files named in `names`, in that order, into `acc`;
      names that were not loaded are skipped. */
  function SelectFiles<T>(acc: LinkedMap<string, T>, all: LinkedMap<string, T>, names: seq<string>): (r: LinkedMap<string, T>)
    ensures acc.Valid() ==> r.Valid()
    ensures acc.keys <= r.keys
    decreases |names|
  {
    if names == [] then acc
    else
      var acc' := if names[0] in all.entries then acc.Put(names[0], all.entries[names[0]]) else acc;
      SelectFiles(acc', all, names[1..])
  }

  /** The loaded contents of the files named in `names`, in that order. */
  function Present<T>(all: LinkedMap<string, T>, names: seq<string>): seq<T>
    decreases |names|
  {
    if names == [] then []
    else (if names[0] in all.entries then [all.entries[names[0]]] else []) + Present(all, names[1..])
  }

  /** Lines 327-339 and 569-581: the std collection takes the std files, the dlc
      collection the std files and then the dlc files. */
  method ScopeFiles<T>(all: LinkedMap<string, T>, stdNames: seq<string>, dlcNames: seq<string>)
    returns (std: LinkedMap<string, T>, dlc: LinkedMap<string, T>)
    ensures std == SelectFiles(Empty(), all, stdNames)
    ensures dlc == SelectFiles(std, all, dlcNames)
  {
    std, dlc := Empty(), Empty();
    var i := 0;
    while i < |stdNames|
      invariant 0 <= i <= |stdNames|
      invariant dlc == std
      invariant SelectFiles(std, all, stdNames[i..]) == SelectFiles(Empty(), all, stdNames)
    {
      var name := stdNames[i];
      assert stdNames[i..][0] == name && stdNames[i..][1..] == stdNames[i + 1..];
      if name in all.entries {
        var files := all.entries[name];
        std := std.Put(name, files);
        dlc := dlc.Put(name, files);
      }
      i := i + 1;
    }
    i := 0;
    while i < |dlcNames|
      invariant 0 <= i <= |dlcNames|
      invariant SelectFiles(dlc, all, dlcNames[i..]) == SelectFiles(std, all, dlcNames)
    {
      var name := dlcNames[i];
      assert dlcNames[i..][0] == name && dlcNames[i..][1..] == dlcNames[i + 1..];
      if name in all.entries {
        dlc := dlc.Put(name, all.entries[name]);
      }
      i := i + 1;
    }
  }

  /** With distinct file names, selecting appends the named files' contents to
      the collection in the given order. */
  lemma {:induction false} SelectFilesItems<T>(acc: LinkedMap<string, T>, all: LinkedMap<string, T>, names: seq<string>)
    requires acc.Valid() && Distinct(names)
    requires forall n :: n in names ==> n !in acc.entries
    ensures SelectFiles(acc, all, names).Items() == acc.Items() + Present(all, names)
    decreases |names|
  {
    if names != [] {
      var n0 := names[0];
      var rest := names[1..];
      assert forall n :: n in rest ==> n != n0 by {
        forall n | n in rest ensures n != n0 {
          var j :| 0 <= j < |rest| && rest[j] == n;
          assert names[j + 1] == n;
        }
      }
      assert Distinct(rest) by {
        forall i, j | 0 <= i < j < |rest| ensures rest[i] != rest[j] {
          assert rest[i] == names[i + 1] && rest[j] == names[j + 1];
        }
      }
      if n0 in all.entries {
        var acc' := acc.Put(n0, all.entries[n0]);
        PutNewItems(acc, n0, all.entries[n0]);
        SelectFilesItems(acc', all, rest);
      } else {
        SelectFilesItems(acc, all, rest);
      }
    }
  }

  // ---------------------------------------------------------------- merging

  function KeysOf<R>(rs: seq<R>, key: R -> string): (ks: seq<string>)
    ensures |ks| == |rs|
    ensures forall i :: 0 <= i < |rs| ==> ks[i] == key(rs[i])
  {
    seq(|rs|, i requires 0 <= i < |rs| => key(rs[i]))
  }

  /** Every value is stored under its own key. */
  ghost predicate KeyedBy<R>(m: LinkedMap<string, R>, key: R -> string) {
    forall k :: k in m.entries ==> key(m.entries[k]) == k
  }

  /** Inserts the records of `rs` into `m` in order, each under its key; a later
      record replaces an earlier one with the same key. */
  function PutAll<R>(m: LinkedMap<string, R>, rs: seq<R>, key: R -> string): (r: LinkedMap<string, R>)
    ensures m.Valid() ==> r.Valid()
    ensures m.keys <= r.keys
    ensures m.entries.Keys <= r.entries.Keys
    ensures KeyedBy(m, key) ==> KeyedBy(r, key)
    decreases |rs|
  {
    if rs == [] then m else PutAll(m.Put(key(rs[0]), rs[0]), rs[1..], key)
  }

  /** Lines 232-235, 261-263 and 565-567: one loop putting each record under its key. */
  method IndexRecords<R>(rs: seq<R>, key: R -> string) returns (m: LinkedMap<string, R>)
    ensures m == PutAll(Empty(), rs, key)
  {
    m := Empty();
    var i := 0;
    while i < |rs|
      invariant 0 <= i <= |rs|
      invariant PutAll(m, rs[i..], key) == PutAll(Empty(), rs, key)
    {
      assert rs[i..][0] == rs[i] && rs[i..][1..] == rs[i + 1..];
      m := m.Put(key(rs[i]), rs[i]);
      i := i + 1;
    }
  }

  /** Inserting a record and then the rest is inserting them all. */
  lemma PutAllCons<R>(m: LinkedMap<string, R>, r: R, rs: seq<R>, key: R -> string)
    ensures PutAll(m, [r] + rs, key) == PutAll(m.Put(key(r), r), rs, key)
  {
    assert ([r] + rs)[1..] == rs;
  }

  /** Last writer wins: after inserting `rs`, a key is present exactly when it
      was before or some record carries it; it maps to the LAST record that
      carries it, and keys no record carries keep their value. */
  lemma {:induction false} PutAllLastWins<R>(m: LinkedMap<string, R>, rs: seq<R>, key: R -> string, k: string)
    ensures k in PutAll(m, rs, key).entries <==> k in m.entries || k in KeysOf(rs, key)
    ensures k !in KeysOf(rs, key) && k in m.entries ==> PutAll(m, rs, key).entries[k] == m.entries[k]
    ensures forall i :: 0 <= i < |rs| && key(rs[i]) == k && k !in KeysOf(rs[i + 1..], key) ==>
      PutAll(m, rs, key).entries[k] == rs[i]
    decreases |rs|
  {
    if rs != [] {
      var m' := m.Put(key(rs[0]), rs[0]);
      var tail := rs[1..];
      PutAllLastWins(m', tail, key, k);
      assert KeysOf(rs, key) == [key(rs[0])] + KeysOf(tail, key);
      forall i | 0 <= i < |rs| && key(rs[i]) == k && k !in KeysOf(rs[i + 1..], key)
        ensures PutAll(m, rs, key).entries[k] == rs[i]
      {
        if i > 0 {
          assert rs[i] == tail[i - 1];
          assert rs[i + 1..] == tail[i..];
        } else {
          assert rs[1..] == tail;
        }
      }
    }
  }

  lemma {:induction false} PutAllAppend<R>(m: LinkedMap<string, R>, a: seq<R>, b: seq<R>, key: R -> string)
    ensures PutAll(m, a + b, key) == PutAll(PutAll(m, a, key), b, key)
    decreases |a|
  {
    if a == [] {
      assert a + b == b;
    } else {
      assert (a + b)[0] == a[0] && (a + b)[1..] == a[1..] + b;
      PutAllAppend(m.Put(key(a[0]), a[0]), a[1..], b, key);
    }
  }

  /** Every record of every file, in file order. */
  function Flatten<F, R>(fs: seq<F>, select: F -> seq<R>): seq<R>
    decreases |fs|
  {
    if fs == [] then [] else select(fs[0]) + Flatten(fs[1..], select)
  }

  lemma {:induction false} FlattenAppend<F, R>(a: seq<F>, b: seq<F>, select: F -> seq<R>)
    ensures Flatten(a + b, select) == Flatten(a, select) + Flatten(b, select)
    decreases |a|
  {
    if a == [] {
      assert a + b == b;
    } else {
      assert (a + b)[0] == a[0] && (a + b)[1..] == a[1..] + b;
      FlattenAppend(a[1..], b, select);
    }
  }

  /** One category's map: each file's records inserted in file order. */
  function MergeFiles<F, R>(m: LinkedMap<string, R>, fs: seq<F>, select: F -> seq<R>, key: R -> string): (r: LinkedMap<string, R>)
    ensures m.Valid() ==> r.Valid()
    ensures KeyedBy(m, key) ==> KeyedBy(r, key)
    decreases |fs|
  {
    if fs == [] then m else MergeFiles(PutAll(m, select(fs[0]), key), fs[1..], select, key)
  }

  /** Merging files is inserting all their records, in order, at once. */
  lemma {:induction false} MergeIsPutAll<F, R>(m: LinkedMap<string, R>, fs: seq<F>, select: F -> seq<R>, key: R -> string)
    ensures MergeFiles(m, fs, select, key) == PutAll(m, Flatten(fs, select), key)
    decreases |fs|
  {
    if fs != [] {
      MergeIsPutAll(PutAll(m, select(fs[0]), key), fs[1..], select, key);
      PutAllAppend(m, select(fs[0]), Flatten(fs[1..], select), key);
    }
  }

  /** Lines 341-453 and 583-600: the nested loop over the files of a scope and
      the records of each file. */
  method MergeCategory<F, R>(files: LinkedMap<string, F>, select: F -> seq<R>, key: R -> string)
    returns (m: LinkedMap<string, R>)
    requires files.Valid()
    ensures m == MergeFiles(Empty(), files.Items(), select, key)
  {
    var fs := files.Items();
    m := Empty();
    var i := 0;
    while i < |files.keys|
      invariant 0 <= i <= |files.keys|
      invariant MergeFiles(m, fs[i..], select, key) == MergeFiles(Empty(), fs, select, key)
    {
      var records := select(files.entries[files.keys[i]]);
      assert fs[i..][0] == fs[i] && fs[i..][1..] == fs[i + 1..];
      var j := 0;
      ghost var m0 := m;
      while j < |records|
        invariant 0 <= j <= |records|
        invariant PutAll(m, records[j..], key) == PutAll(m0, records, key)
      {
        assert records[j..][0] == records[j] && records[j..][1..] == records[j + 1..];
        m := m.Put(key(records[j]), records[j]);
        j := j + 1;
      }
      i := i + 1;
    }
  }

  /** The overlay theorem for one category. With distinct file names, the std
      map is the std files' records inserted in load order, and the dlc map is
      the std map with the dlc files' records inserted after them. Hence every
      id maps to the record of the last file that defines it, an id defined only
      in dlc files is absent from the std map, and std ids are dlc ids. */
  lemma {:induction false} ScopedOverlay<F, R>(all: LinkedMap<string, F>, stdNames: seq<string>, dlcNames: seq<string>,
                                               select: F -> seq<R>, key: R -> string)
    requires all.Valid()
    requires Distinct(stdNames + dlcNames)
    ensures var std := SelectFiles(Empty(), all, stdNames);
            var dlc := SelectFiles(std, all, dlcNames);
            var ms := MergeFiles(Empty(), std.Items(), select, key);
            var md := MergeFiles(Empty(), dlc.Items(), select, key);
            && ms == PutAll(Empty(), Flatten(Present(all, stdNames), select), key)
            && md == PutAll(ms, Flatten(Present(all, dlcNames), select), key)
            && ms.entries.Keys <= md.entries.Keys
  {
    var names := stdNames + dlcNames;
    assert Distinct(stdNames) by {
      forall i, j | 0 <= i < j < |stdNames| ensures stdNames[i] != stdNames[j] {
        assert names[i] == stdNames[i] && names[j] == stdNames[j];
      }
    }
    assert Distinct(dlcNames) by {
      forall i, j | 0 <= i < j < |dlcNames| ensures dlcNames[i] != dlcNames[j] {
        assert names[|stdNames| + i] == dlcNames[i] && names[|stdNames| + j] == dlcNames[j];
      }
    }
    var std := SelectFiles(Empty(), all, stdNames);
    SelectFilesItems(Empty(), all, stdNames);
    assert Empty<string, F>().Items() == [];
    assert std.Items() == Present(all, stdNames);
    SelectKeys(Empty(), all, stdNames);
    assert forall n :: n in dlcNames ==> n !in std.entries by {
      forall n | n in dlcNames ensures n !in std.entries {
        var j :| 0 <= j < |dlcNames| && dlcNames[j] == n;
        assert names[|stdNames| + j] == n;
        forall i | 0 <= i < |stdNames| ensures stdNames[i] != n {
          assert names[i] == stdNames[i];
        }
      }
    }
    SelectFilesItems(std, all, dlcNames);
    var sf := Present(all, stdNames);
    var df := Present(all, dlcNames);
    MergeIsPutAll(Empty(), sf, select, key);
    MergeIsPutAll(Empty(), sf + df, select, key);
    FlattenAppend(sf, df, select);
    PutAllAppend(Empty(), Flatten(sf, select), Flatten(df, select), key);
  }

  /** Selecting adds only the selected names. */
  lemma {:induction false} SelectKeys<T>(acc: LinkedMap<string, T>, all: LinkedMap<string, T>, names: seq<string>)
    ensures forall n :: n in SelectFiles(acc, all, names).entries ==> n in acc.entries || n in names
    decreases |names|
  {
    if names != [] {
      var acc' := if names[0] in all.entries then acc.Put(names[0], all.entries[names[0]]) else acc;
      SelectKeys(acc', all, names[1..]);
    }
  }

  /** The overlay theorem stated per id: an id is in the std map exactly when a
      std file defines it, in the dlc map exactly when a std or dlc file defines
      it, and in each it maps to the record of the last definition in load order. */
  lemma {:induction false} OverlayLastWins<F, R>(all: LinkedMap<string, F>, stdNames: seq<string>, dlcNames: seq<string>,
                                                 select: F -> seq<R>, key: R -> string, k: string)
    requires all.Valid()
    requires Distinct(stdNames + dlcNames)
    ensures var std := SelectFiles(Empty(), all, stdNames);
            var dlc := SelectFiles(std, all, dlcNames);
            var ms := MergeFiles(Empty(), std.Items(), select, key);
            var md := MergeFiles(Empty(), dlc.Items(), select, key);
            var stdRecords := Flatten(Present(all, stdNames), select);
            var records := stdRecords + Flatten(Present(all, dlcNames), select);
            && (k in ms.entries <==> k in KeysOf(stdRecords, key))
            && (k in md.entries <==> k in KeysOf(records, key))
            && (forall i :: 0 <= i < |stdRecords| && key(stdRecords[i]) == k && k !in KeysOf(stdRecords[i + 1..], key) ==>
                  ms.entries[k] == stdRecords[i])
            && (forall i :: 0 <= i < |records| && key(records[i]) == k && k !in KeysOf(records[i + 1..], key) ==>
                  md.entries[k] == records[i])
  {
    ScopedOverlay(all, stdNames, dlcNames, select, key);
    var stdRecords := Flatten(Present(all, stdNames), select);
    var records := stdRecords + Flatten(Present(all, dlcNames), select);
    PutAllAppend(Empty(), stdRecords, Flatten(Present(all, dlcNames), select), key);
    PutAllLastWins(Empty(), stdRecords, key, k);
    PutAllLastWins(Empty(), records, key, k);
  }

  /** A property every inserted record has is one every stored value has. */
  lemma {:induction false} PutAllKeeps<R>(m: LinkedMap<string, R>, rs: seq<R>, key: R -> string, P: R -> bool)
    requires forall k :: k in m.entries ==> P(m.entries[k])
    requires forall i :: 0 <= i < |rs| ==> P(rs[i])
    ensures forall k :: k in PutAll(m, rs, key).entries ==> P(PutAll(m, rs, key).entries[k])
    decreases |rs|
  {
    if rs != [] {
      PutAllKeeps(m.Put(key(rs[0]), rs[0]), rs[1..], key, P);
    }
  }
}
