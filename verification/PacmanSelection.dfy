/** The pacman database: one version of every package. */
module PacmanSelection {
  import opened Wrappers
  import opened Versions

  datatype Info = Info(name: string, version: string, size: nat)

  /** A scanned package file, and what could be read from it. */
  datatype File = File(path: string, info: Option<Info>)

  predicate Named(files: seq<File>, i: nat, name: string) {
    i < |files| && files[i].info.Some? && files[i].info.value.name == name
  }

  function VersionAt(files: seq<File>, i: nat): string
    requires i < |files| && files[i].info.Some?
  {
    files[i].info.value.version
  }

  /** Which of the first `n` files represents the name. */
  function Pick(files: seq<File>, name: string, n: nat): (pick: Option<nat>)
    requires n <= |files|
    ensures pick.Some? ==> pick.value < n && Named(files, pick.value, name)
    ensures pick.None? <==> forall i :: 0 <= i < n ==> !Named(files, i, name)
  {
    if n == 0 then None
    else
      var before := Pick(files, name, n - 1);
      if !Named(files, n - 1, name) then before
      else if before.None? || Order(VersionAt(files, n - 1), VersionAt(files, before.value)) == Greater then Some(n - 1)
      else before
  }

  /** The maps hold for the name the data and the path of one and the same file, the picked one. */
  predicate HoldsFor(files: seq<File>, n: nat, infos: map<string, Info>, paths: map<string, string>, name: string)
    requires n <= |files|
  {
    match Pick(files, name, n)
    case None => name !in infos && name !in paths
    case Some(i) =>
      && name in infos && Some(infos[name]) == files[i].info
      && name in paths && paths[name] == files[i].path
  }

  ghost predicate Holds(files: seq<File>, n: nat, infos: map<string, Info>, paths: map<string, string>)
    requires n <= |files|
  {
    forall name :: HoldsFor(files, n, infos, paths, name)
  }

  /** The selection loop of `generate_pacman_metadata`. */
  method SelectLatest(files: seq<File>) returns (infos: map<string, Info>, paths: map<string, string>)
    ensures Holds(files, |files|, infos, paths)
  {
    hide Order;
    infos, paths := map[], map[];
    for i := 0 to |files|
      invariant Holds(files, i, infos, paths)
    {
      ghost var infos0, paths0 := infos, paths;
      match files[i].info {
        case None =>
        case Some(info) =>
          assert HoldsFor(files, i, infos, paths, info.name);
          var name, version := info.name, info.version;
          var isNewer := true;
          if name in infos {
            var order := CompareVersions(version, infos[name].version);
            isNewer := order == Greater;
          }
          if isNewer {
            infos := infos[name := info];
            paths := paths[name := files[i].path];
          }
      }
      ghost var n := i + 1;
      forall name ensures HoldsFor(files, n, infos, paths, name) {
        assert HoldsFor(files, i, infos0, paths0, name);
      }
    }
  }

  // ---------------------------------------------------------------------------
  // What is selected
  // ---------------------------------------------------------------------------

  /** All versions of the name have numbers at the same places. */
  ghost predicate Comparable(files: seq<File>, name: string) {
    forall i, j :: Named(files, i, name) && Named(files, j, name)
      ==> SameKinds(Parts(VersionAt(files, i)), Parts(VersionAt(files, j)))
  }

  /** Whatever the versions are, no later file of the name exceeds the selected one. */
  lemma {:induction false} LaterNotGreater(files: seq<File>, name: string, n: nat, j: nat)
    requires n <= |files| && Pick(files, name, n).Some?
    requires Pick(files, name, n).value < j < n && Named(files, j, name)
    ensures Order(VersionAt(files, j), VersionAt(files, Pick(files, name, n).value)) != Greater
    decreases n
  {
    hide Order;
    if j < n - 1 {
      LaterNotGreater(files, name, n - 1, j);
    }
  }

  /** Among comparable versions all earlier files are smaller and no later one is greater. */
  lemma {:induction false} PicksFirstLatest(files: seq<File>, name: string, n: nat, j: nat)
    requires n <= |files| && Comparable(files, name)
    requires j < n && Named(files, j, name)
    ensures var i := Pick(files, name, n).value;
            var order := Order(VersionAt(files, j), VersionAt(files, i));
            order != Greater && (j < i ==> order == Less)
    decreases n
  {
    hide Order, SameKinds, Parts;
    var i := Pick(files, name, n).value;
    if j == i {
      OrderFlips(VersionAt(files, i), VersionAt(files, i));
    } else if j < n - 1 {
      var before := Pick(files, name, n - 1).value;
      PicksFirstLatest(files, name, n - 1, j);
      if i == n - 1 {
        var v, u, w := VersionAt(files, j), VersionAt(files, before), VersionAt(files, i);
        OrderFlips(u, w);
        if j != before {
          OrderIsTransitive(v, u, w);
        }
      }
    }
  }

  /** The version of a name that the database gets. */
  ghost predicate Latest(files: seq<File>, name: string, i: nat) {
    Named(files, i, name)
    && forall j :: Named(files, j, name) ==> Order(VersionAt(files, j), VersionAt(files, i)) != Greater
  }

  /** Among comparable versions the selected one is exceeded by none. */
  lemma PicksLatest(files: seq<File>, name: string)
    requires Comparable(files, name) && Pick(files, name, |files|).Some?
    ensures Latest(files, name, Pick(files, name, |files|).value)
  {
    hide Order, Pick, Comparable;
    var i := Pick(files, name, |files|).value;
    forall j | Named(files, j, name) ensures Order(VersionAt(files, j), VersionAt(files, i)) != Greater {
      PicksFirstLatest(files, name, |files|, j);
    }
  }

  /** The two scans found the same packages, perhaps in another order. */
  predicate SameFiles(a: seq<File>, b: seq<File>) {
    multiset(a) == multiset(b)
  }

  /** In whichever order comparable files are scanned, the selected versions compare as equal. */
  lemma OrderOfScanDoesNotMatter(a: seq<File>, b: seq<File>, name: string)
    requires SameFiles(a, b) && Comparable(a, name)
    ensures Pick(a, name, |a|).Some? <==> Pick(b, name, |b|).Some?
    ensures Pick(a, name, |a|).Some? ==>
              Order(VersionAt(a, Pick(a, name, |a|).value), VersionAt(b, Pick(b, name, |b|).value)) == Equal
  {
    hide Order, Comparable, Pick;
    SameNames(a, b, name);
    SameNames(b, a, name);
    if Pick(a, name, |a|).Some? {
      ComparableAlso(a, b, name);
      PicksLatest(a, name);
      PicksLatest(b, name);
      var i, j := Pick(a, name, |a|).value, Pick(b, name, |b|).value;
      var i2 := Elsewhere(a, b, i);
      var j2 := Elsewhere(b, a, j);
      assert Named(b, i2, name) && Named(a, j2, name);
      OrderFlips(VersionAt(a, i), VersionAt(b, j));
    }
  }

  lemma Elsewhere(a: seq<File>, b: seq<File>, i: nat) returns (j: nat)
    requires SameFiles(a, b) && i < |a|
    ensures j < |b| && b[j] == a[i]
  {
    assert a[i] in multiset(b);
    assert a[i] in b;
    j :| j < |b| && b[j] == a[i];
  }

  lemma SameNames(a: seq<File>, b: seq<File>, name: string)
    requires SameFiles(a, b)
    ensures Pick(a, name, |a|).Some? ==> Pick(b, name, |b|).Some?
  {
    if Pick(a, name, |a|).Some? {
      var j := Elsewhere(a, b, Pick(a, name, |a|).value);
      assert Named(b, j, name);
    }
  }

  lemma ComparableAlso(a: seq<File>, b: seq<File>, name: string)
    requires SameFiles(a, b) && Comparable(a, name)
    ensures Comparable(b, name)
  {
    hide SameKinds, Parts;
    forall i, j | Named(b, i, name) && Named(b, j, name)
      ensures SameKinds(Parts(VersionAt(b, i)), Parts(VersionAt(b, j)))
    {
      var i2 := Elsewhere(b, a, i);
      var j2 := Elsewhere(b, a, j);
      assert Named(a, i2, name) && Named(a, j2, name);
    }
  }

  // ---------------------------------------------------------------------------
  // When every scan selects a latest version
  // ---------------------------------------------------------------------------

  /** Three files of the name: the first not after the second, the second before the third, and yet the third before the first. */
  predicate Detour(files: seq<File>, name: string, i: nat, j: nat, k: nat) {
    && Named(files, i, name) && Named(files, j, name) && Named(files, k, name)
    && Order(VersionAt(files, i), VersionAt(files, j)) != Greater
    && Order(VersionAt(files, j), VersionAt(files, k)) == Less
    && Order(VersionAt(files, k), VersionAt(files, i)) == Less
  }

  ghost predicate NoDetours(files: seq<File>, name: string) {
    forall i: nat, j: nat, k: nat :: !Detour(files, name, i, j, k)
  }

  /** Without detours none of the scanned files exceeds the selected one. */
  lemma {:induction false} NoneExceedsWithoutDetours(files: seq<File>, name: string, n: nat, j: nat)
    requires n <= |files| && NoDetours(files, name)
    requires j < n && Named(files, j, name)
    ensures Order(VersionAt(files, j), VersionAt(files, Pick(files, name, n).value)) != Greater
    decreases n
  {
    hide Order;
    var i := Pick(files, name, n).value;
    if j == i {
      OrderFlips(VersionAt(files, i), VersionAt(files, i));
    } else if j < n - 1 {
      var before := Pick(files, name, n - 1).value;
      NoneExceedsWithoutDetours(files, name, n - 1, j);
      if i == n - 1 {
        OrderFlips(VersionAt(files, i), VersionAt(files, before));
        OrderFlips(VersionAt(files, i), VersionAt(files, j));
        assert !Detour(files, name, j, before, i);
      }
    }
  }

  /** What a directory holds of the files, in the order of a scan. */
  predicate ScanOf(scan: seq<File>, files: seq<File>) {
    forall i :: 0 <= i < |scan| ==> scan[i] in files
  }

  ghost predicate SelectsLatest(scan: seq<File>, name: string) {
    Pick(scan, name, |scan|).Some? ==> Latest(scan, name, Pick(scan, name, |scan|).value)
  }

  lemma DetourAmongFiles(scan: seq<File>, files: seq<File>, name: string, i: nat, j: nat, k: nat)
    returns (i2: nat, j2: nat, k2: nat)
    requires ScanOf(scan, files) && Detour(scan, name, i, j, k)
    ensures Detour(files, name, i2, j2, k2)
  {
    hide Order;
    i2 :| i2 < |files| && files[i2] == scan[i];
    j2 :| j2 < |files| && files[j2] == scan[j];
    k2 :| k2 < |files| && files[k2] == scan[k];
  }

  lemma DetoursOfScan(scan: seq<File>, files: seq<File>, name: string)
    requires ScanOf(scan, files) && NoDetours(files, name)
    ensures NoDetours(scan, name)
  {
    hide Detour;
    forall i: nat, j: nat, k: nat | Detour(scan, name, i, j, k) ensures false {
      var i2, j2, k2 := DetourAmongFiles(scan, files, name, i, j, k);
    }
  }

  /** A scan of the second, the first and the third file ends with the third, which the first exceeds. */
  lemma DetourMisleads(files: seq<File>, name: string, i: nat, j: nat, k: nat) returns (scan: seq<File>)
    requires Detour(files, name, i, j, k)
    ensures ScanOf(scan, files) && !SelectsLatest(scan, name)
  {
    hide Order;
    scan := [files[j], files[i], files[k]];
    OrderFlips(VersionAt(files, j), VersionAt(files, k));
    OrderFlips(VersionAt(files, k), VersionAt(files, i));
    assert Named(scan, 0, name) && Named(scan, 1, name) && Named(scan, 2, name);
    assert Pick(scan, name, 1) == Some(0);
    assert Pick(scan, name, 2) == Some(0);
    assert Pick(scan, name, 3) == Some(2);
  }

  /**
    Whatever a directory holds of the files, and in whatever order they are scanned, a
    version that none exceeds is selected: exactly if no three of them make a detour.
  */
  lemma LatestExactlyWithoutDetours(files: seq<File>, name: string)
    ensures (forall scan :: ScanOf(scan, files) ==> SelectsLatest(scan, name)) <==> NoDetours(files, name)
  {
    hide Order, Detour, Pick;
    if NoDetours(files, name) {
      forall scan | ScanOf(scan, files) ensures SelectsLatest(scan, name) {
        DetoursOfScan(scan, files, name);
        forall j: nat | Pick(scan, name, |scan|).Some? && Named(scan, j, name)
          ensures Order(VersionAt(scan, j), VersionAt(scan, Pick(scan, name, |scan|).value)) != Greater
        {
          NoneExceedsWithoutDetours(scan, name, |scan|, j);
        }
      }
    } else {
      var i: nat, j: nat, k: nat :| Detour(files, name, i, j, k);
      var scan := DetourMisleads(files, name, i, j, k);
    }
  }

  /** Comparable versions make no detour. */
  lemma ComparableMakesNoDetour(files: seq<File>, name: string)
    requires Comparable(files, name)
    ensures NoDetours(files, name)
  {
    hide Order, SameKinds, Parts;
    forall i: nat, j: nat, k: nat | Detour(files, name, i, j, k) ensures false {
      OrderIsTransitive(VersionAt(files, i), VersionAt(files, j), VersionAt(files, k));
      OrderFlips(VersionAt(files, k), VersionAt(files, i));
    }
  }

  /** With a word among the numbers the selected version can be exceeded by an earlier one. */
  lemma SelectedNotLatest()
    ensures var files := [File("a", Some(Info("p", "9", 0))),
                          File("b", Some(Info("p", "10", 0))),
                          File("c", Some(Info("p", "1a", 0)))];
            Pick(files, "p", 3) == Some(2) && Order(VersionAt(files, 0), VersionAt(files, 2)) == Greater
  {
    hide Order;
    var files := [File("a", Some(Info("p", "9", 0))),
                  File("b", Some(Info("p", "10", 0))),
                  File("c", Some(Info("p", "1a", 0)))];
    VersionCycle();
    OrderFlips("9", "10");
    OrderFlips("10", "1a");
    OrderFlips("1a", "9");
    assert Named(files, 0, "p") && Named(files, 1, "p") && Named(files, 2, "p");
    assert Pick(files, "p", 1) == Some(0);
    assert Pick(files, "p", 2) == Some(1);
  }
}
