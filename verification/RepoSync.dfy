/** Syncing released package files into the package repository. */
module RepoSync {
  import opened Wrappers

  // ---------------------------------------------------------------------------
  // File names and places
  // ---------------------------------------------------------------------------

  datatype Distro = Apt | Dnf | Apk | Pacman

  predicate EndsWith(s: string, end: string) {
    |end| <= |s| && s[|s| - |end|..] == end
  }

  predicate IsPackageFile(name: string) {
    EndsWith(name, ".deb") || EndsWith(name, ".rpm") || EndsWith(name, ".apk") || EndsWith(name, ".pkg.tar.zst")
  }

  /** `detect_distro_from_filename` */
  function DetectDistro(name: string): (distro: Option<Distro>)
    ensures distro.Some? <==> IsPackageFile(name)
  {
    if EndsWith(name, ".deb") then Some(Apt)
    else if EndsWith(name, ".rpm") then Some(Dnf)
    else if EndsWith(name, ".apk") then Some(Apk)
    else if EndsWith(name, ".pkg.tar.zst") then Some(Pacman)
    else None
  }

  /** A path below the repository, as the names that lead along it. */
  type Path = seq<string>

  /** The position of the first slash, or the length. */
  function FirstSlash(s: string): (i: nat)
    ensures i <= |s| && (i < |s| ==> s[i] == '/')
    ensures forall j :: 0 <= j < i ==> s[j] != '/'
  {
    if s == [] || s[0] == '/' then 0 else 1 + FirstSlash(s[1..])
  }

  /** A name on a path, unless it is empty or a single dot. */
  function Name(piece: string): Path {
    if piece == "" || piece == "." then [] else [piece]
  }

  /** The names on a path: repeated slashes and single dots lead nowhere. */
  function Components(path: string): Path
    decreases |path|
  {
    var i := FirstSlash(path);
    Name(path[..i]) + if i < |path| then Components(path[i + 1..]) else []
  }

  /** The directory of the format. */
  function Directory(distro: Distro): (dir: Path)
    ensures dir != []
  {
    match distro
    case Apt => ["apt", "pool"]
    case Dnf => ["dnf", "el9", "Packages"]
    case Apk => ["apk", "v3.21", "x86_64"]
    case Pacman => ["pacman", "x86_64"]
  }

  /** `local_package_path` */
  function LocalPath(distro: Distro, name: string): Path {
    Directory(distro) + Components(name)
  }

  function DownloadPath(name: string): string {
    "/tmp/" + name
  }

  /** What an import calls a file whose path has no last name. */
  function DefaultName(distro: Distro): (name: string)
    ensures name != ".."
  {
    match distro
    case Apt => "package.deb"
    case Dnf => "package.rpm"
    case Apk => "package.apk"
    case Pacman => "package.pkg.tar.zst"
  }

  function FileName(path: string): Option<string> {
    var names := Components(path);
    if names == [] || names[|names| - 1] == ".." then None else Some(names[|names| - 1])
  }

  /** Where `import_to_repo` copies a downloaded file. */
  function Destination(distro: Distro, downloaded: string): Path {
    Directory(distro) + [FileName(downloaded).GetOr(DefaultName(distro))]
  }

  lemma FirstSlashIs(s: string, i: nat)
    requires i < |s| && s[i] == '/' && forall j :: 0 <= j < i ==> s[j] != '/'
    ensures FirstSlash(s) == i
  {
  }

  lemma ComponentsAfter(front: string, rest: string)
    requires '/' !in front
    ensures Components(front + "/" + rest) == Name(front) + Components(rest)
  {
    var path := front + "/" + rest;
    FirstSlashIs(path, |front|);
    assert path[..|front|] == front && path[|front| + 1..] == rest;
  }

  lemma DownloadComponents(name: string)
    ensures Components(DownloadPath(name)) == ["tmp"] + Components(name)
  {
    hide Components;
    assert DownloadPath(name) == "" + "/" + ("tmp" + "/" + name);
    ComponentsAfter("", "tmp" + "/" + name);
    ComponentsAfter("tmp", name);
  }

  /** The path is one name, not the parent directory. */
  predicate SingleName(name: string) {
    var names := Components(name);
    |names| == 1 && names[0] != ".."
  }

  /** The file is looked for where the import put it exactly if its name leads to one place. */
  lemma LookedForWherePut(distro: Distro, name: string)
    ensures LocalPath(distro, name) == Destination(distro, DownloadPath(name)) <==> SingleName(name)
  {
    hide Directory, Components, DefaultName;
    DownloadComponents(name);
    var names := Components(name);
    var dir := Directory(distro);
    assert LocalPath(distro, name)[|dir|..] == names;
    assert Destination(distro, DownloadPath(name))[|dir|..] == [FileName(DownloadPath(name)).GetOr(DefaultName(distro))];
    if |names| == 1 {
      assert names == [names[0]];
    }
  }

  // ---------------------------------------------------------------------------
  // Releases and records
  // ---------------------------------------------------------------------------

  datatype Asset = Asset(name: string, url: string, size: nat)
  datatype Release = Release(tag: string, assets: seq<Asset>)

  /** What identifies a record of the repository. */
  datatype Key = Key(filename: string, version: string, distro: Distro)
  datatype Package = Package(key: Key, size: nat, sha256: string)

  /** The recorded digest of each package. */
  type Records = map<Key, Option<string>>

  function StripV(tag: string): string {
    if tag != [] && tag[0] == 'v' then tag[1..] else tag
  }

  /** An asset and the version its release gives it. */
  datatype Item = Item(asset: Asset, version: string)

  function KeyOf(item: Item): Key
    requires IsPackageFile(item.asset.name)
  {
    Key(item.asset.name, item.version, DetectDistro(item.asset.name).value)
  }

  function ItemsOf(assets: seq<Asset>, version: string): (items: seq<Item>)
    ensures |items| == |assets| && forall i :: 0 <= i < |items| ==> items[i] == Item(assets[i], version)
  {
    seq(|assets|, i requires 0 <= i < |assets| => Item(assets[i], version))
  }

  function Items(releases: seq<Release>): seq<Item> {
    if releases == [] then []
    else
      var last := releases[|releases| - 1];
      Items(releases[..|releases| - 1]) + ItemsOf(last.assets, StripV(last.tag))
  }

  /** Storing the synced packages: insert, or update on conflict. */
  function Upserted(records: Records, packages: seq<Package>): (after: Records)
    ensures forall k :: k in records && records[k].Some? ==> k in after && after[k].Some?
    ensures forall i :: 0 <= i < |packages| ==> packages[i].key in after && after[packages[i].key].Some?
    decreases |packages|
  {
    if packages == [] then records
    else
      var last := packages[|packages| - 1];
      Upserted(records, packages[..|packages| - 1])[last.key := Some(last.sha256)]
  }

  // ---------------------------------------------------------------------------
  // One cycle
  // ---------------------------------------------------------------------------

  /** How a download and its import end; a failed import may have copied the file already. */
  datatype Fate = NoDownload | NoImport(copied: bool) | Imported(sha256: string)
  datatype Failure = DownloadFailed(name: string) | ImportFailed(name: string)

  /** The counts and lists of a sync result. */
  datatype SyncResult = SyncResult(synced: nat, skipped: nat, errors: seq<Failure>, packages: seq<Package>)

  /** A result so far, the files of the repository, and the items downloaded. */
  datatype Cycle = Cycle(result: SyncResult, files: set<Path>, downloads: seq<Item>)

  /** Whether the item is recorded with a digest and its file is in place. */
  predicate InPlace(records: Records, files: set<Path>, item: Item)
    requires IsPackageFile(item.asset.name)
  {
    var key := KeyOf(item);
    key in records && records[key].Some? && LocalPath(key.distro, key.filename) in files
  }

  function Skip(r: SyncResult): SyncResult {
    r.(skipped := r.skipped + 1)
  }

  function Step(records: Records, fate: Fate, c: Cycle, item: Item): Cycle {
    var name := item.asset.name;
    if !IsPackageFile(name) || InPlace(records, c.files, item) then c.(result := Skip(c.result))
    else
      var dest := Destination(DetectDistro(name).value, DownloadPath(name));
      var downloads := c.downloads + [item];
      match fate
      case NoDownload =>
        Cycle(Skip(c.result).(errors := c.result.errors + [DownloadFailed(name)]), c.files, downloads)
      case NoImport(copied) =>
        Cycle(Skip(c.result).(errors := c.result.errors + [ImportFailed(name)]),
              if copied then c.files + {dest} else c.files, downloads)
      case Imported(sha256) =>
        var package := Package(KeyOf(item), item.asset.size, sha256);
        Cycle(c.result.(synced := c.result.synced + 1, packages := c.result.packages + [package]),
              c.files + {dest}, downloads)
  }

  /** How the n-th download of a cycle ends. */
  type Network = nat -> Fate

  function Run(records: Records, net: Network, files: set<Path>, items: seq<Item>): Cycle {
    if items == [] then Cycle(SyncResult(0, 0, [], []), files, [])
    else
      var before := Run(records, net, files, items[..|items| - 1]);
      Step(records, net(|before.downloads|), before, items[|items| - 1])
  }

  lemma RunStep(records: Records, net: Network, files: set<Path>, items: seq<Item>, item: Item)
    ensures var before := Run(records, net, files, items);
            Run(records, net, files, items + [item]) == Step(records, net(|before.downloads|), before, item)
  {
    assert (items + [item])[..|items|] == items;
  }

  class Repository {
    var files: set<Path>

    constructor ()
      ensures files == {}
    {
      files := {};
    }

    /** `import_to_repo`, as far as the package file goes. */
    method ImportToRepo(distro: Distro, downloaded: string, copied: bool)
      modifies this
      ensures files == old(files) + if copied then {Destination(distro, downloaded)} else {}
    {
      if copied {
        files := files + {Destination(distro, downloaded)};
      }
    }
  }

  /** One asset of the agent loop; `fate` tells how a download of it would end. */
  method SyncAsset(repo: Repository, records: Records, fate: Fate, asset: Asset, version: string, before: SyncResult,
                   ghost downloads: seq<Item>)
    returns (result: SyncResult, downloaded: bool)
    modifies repo
    ensures Cycle(result, repo.files, if downloaded then downloads + [Item(asset, version)] else downloads)
            == Step(records, fate, Cycle(before, old(repo.files), downloads), Item(asset, version))
  {
    hide Directory, FileName, EndsWith;
    result, downloaded := before, false;
    if !IsPackageFile(asset.name) {
      result := result.(skipped := result.skipped + 1);
      return;
    }
    var distro := DetectDistro(asset.name).value;
    var key := Key(asset.name, version, distro);
    if key in records && records[key].Some? {
      var local := LocalPath(distro, asset.name);
      if local in repo.files {
        result := result.(skipped := result.skipped + 1);
        return;
      }
    }
    downloaded := true;
    var path := DownloadPath(asset.name);
    match fate {
      case NoDownload =>
        result := result.(errors := result.errors + [DownloadFailed(asset.name)], skipped := result.skipped + 1);
      case NoImport(copied) =>
        repo.ImportToRepo(distro, path, copied);
        result := result.(errors := result.errors + [ImportFailed(asset.name)], skipped := result.skipped + 1);
      case Imported(sha256) =>
        repo.ImportToRepo(distro, path, true);
        result := result.(synced := result.synced + 1);
        result := result.(packages := result.packages + [Package(key, asset.size, sha256)]);
    }
  }

  /** The agent loop of `run_sync_cycle`. */
  method RunSyncCycle(repo: Repository, releases: seq<Release>, records: Records, net: Network)
    returns (result: SyncResult, ghost downloads: seq<Item>)
    modifies repo
    ensures Cycle(result, repo.files, downloads) == Run(records, net, old(repo.files), Items(releases))
  {
    hide Step, Run, Items;
    result := SyncResult(0, 0, [], []);
    downloads := [];
    var attempt := 0;
    ghost var files := repo.files;
    NoItems(records, net, files);
    for r := 0 to |releases|
      invariant attempt == |downloads|
      invariant Cycle(result, repo.files, downloads) == Run(records, net, files, Items(releases[..r]))
    {
      var release := releases[r];
      var version := StripV(release.tag);
      ghost var earlier := Items(releases[..r]);
      ghost var here := ItemsOf(release.assets, version);
      NextRelease(releases, r);
      assert earlier + here[..0] == earlier;
      for a := 0 to |release.assets|
        invariant attempt == |downloads|
        invariant Cycle(result, repo.files, downloads) == Run(records, net, files, earlier + here[..a])
      {
        var fate := net(attempt);
        RunStep(records, net, files, earlier + here[..a], here[a]);
        NextItem(earlier, here, a);
        var downloaded;
        result, downloaded := SyncAsset(repo, records, fate, release.assets[a], version, result, downloads);
        if downloaded {
          attempt, downloads := attempt + 1, downloads + [here[a]];
        }
      }
      assert here[..|here|] == here;
    }
    assert releases[..|releases|] == releases;
  }

  lemma NextItem(earlier: seq<Item>, here: seq<Item>, a: nat)
    requires a < |here|
    ensures earlier + here[..a + 1] == earlier + here[..a] + [here[a]]
  {
  }

  lemma NextRelease(releases: seq<Release>, r: nat)
    requires r < |releases|
    ensures Items(releases[..r + 1])
            == Items(releases[..r]) + ItemsOf(releases[r].assets, StripV(releases[r].tag))
  {
    assert releases[..r + 1][..r] == releases[..r];
  }

  lemma NoItems(records: Records, net: Network, files: set<Path>)
    ensures Items([]) == [] && Run(records, net, files, []) == Cycle(SyncResult(0, 0, [], []), files, [])
  {
  }

  // ---------------------------------------------------------------------------
  // What one cycle counts
  // ---------------------------------------------------------------------------

  /** The packages of the downloads that were imported, in order. */
  function ImportedOf(net: Network, downloads: seq<Item>): seq<Package>
    requires forall i :: 0 <= i < |downloads| ==> IsPackageFile(downloads[i].asset.name)
  {
    if downloads == [] then []
    else
      var n := |downloads| - 1;
      var item := downloads[n];
      ImportedOf(net, downloads[..n])
      + match net(n) {
          case Imported(sha256) => [Package(KeyOf(item), item.asset.size, sha256)]
          case _ => []
        }
  }

  predicate PackageFiles(downloads: seq<Item>) {
    forall i :: 0 <= i < |downloads| ==> IsPackageFile(downloads[i].asset.name)
  }

  predicate Counted(net: Network, c: Cycle, n: nat) {
    && c.result.synced + c.result.skipped == n
    && c.result.synced == |c.result.packages|
    && c.result.synced + |c.result.errors| == |c.downloads|
    && PackageFiles(c.downloads)
    && c.result.packages == ImportedOf(net, c.downloads)
  }

  lemma ImportedNext(net: Network, downloads: seq<Item>, item: Item)
    requires PackageFiles(downloads) && IsPackageFile(item.asset.name)
    ensures ImportedOf(net, downloads + [item])
            == ImportedOf(net, downloads)
               + match net(|downloads|) {
                   case Imported(sha256) => [Package(KeyOf(item), item.asset.size, sha256)]
                   case _ => []
                 }
  {
    hide IsPackageFile, DetectDistro;
    assert (downloads + [item])[..|downloads|] == downloads;
  }

  lemma CountedStep(records: Records, net: Network, c: Cycle, item: Item, n: nat)
    requires Counted(net, c, n)
    ensures Counted(net, Step(records, net(|c.downloads|), c, item), n + 1)
  {
    hide IsPackageFile, DetectDistro, Destination, LocalPath, ImportedOf, InPlace;
    if IsPackageFile(item.asset.name) {
      ImportedNext(net, c.downloads, item);
    }
  }

  /**
    Every asset is counted once, as synced or skipped; the synced packages are the
    imported downloads, and each other download left an error.
  */
  lemma {:induction false} EveryAssetCounted(records: Records, net: Network, files: set<Path>, items: seq<Item>)
    ensures Counted(net, Run(records, net, files, items), |items|)
    decreases |items|
  {
    hide Step, Counted;
    if items != [] {
      var front := items[..|items| - 1];
      EveryAssetCounted(records, net, files, front);
      var before := Run(records, net, files, front);
      CountedStep(records, net, before, items[|items| - 1], |front|);
    } else {
      CountedNothing(net, files);
    }
  }

  lemma CountedNothing(net: Network, files: set<Path>)
    ensures Counted(net, Cycle(SyncResult(0, 0, [], []), files, []), 0)
  {
  }

  // ---------------------------------------------------------------------------
  // The next cycle
  // ---------------------------------------------------------------------------

  lemma {:induction false} FilesStay(records: Records, net: Network, files: set<Path>, items: seq<Item>)
    ensures files <= Run(records, net, files, items).files
    decreases |items|
  {
    hide IsPackageFile, DetectDistro, Destination, LocalPath;
    if items != [] {
      FilesStay(records, net, files, items[..|items| - 1]);
    }
  }

  predicate Found(package: Package, files: set<Path>) {
    LocalPath(package.key.distro, package.key.filename) in files
  }

  predicate AllFound(packages: seq<Package>, files: set<Path>) {
    forall i :: 0 <= i < |packages| && SingleName(packages[i].key.filename) ==> Found(packages[i], files)
  }

  /** Every synced package with a single name is where the next cycle looks for it. */
  lemma {:induction false} SyncedAreFound(records: Records, net: Network, files: set<Path>, items: seq<Item>)
    ensures var c := Run(records, net, files, items); AllFound(c.result.packages, c.files)
    decreases |items|
  {
    hide IsPackageFile, DetectDistro, Destination, LocalPath, SingleName;
    if items != [] {
      var front, item := items[..|items| - 1], items[|items| - 1];
      SyncedAreFound(records, net, files, front);
      if IsPackageFile(item.asset.name) {
        LookedForWherePut(DetectDistro(item.asset.name).value, item.asset.name);
      }
    }
  }

  /** A package is left out only if it is recorded and in place; every other one is downloaded. */
  lemma {:induction false} DownloadedOrInPlace(records: Records, net: Network, files: set<Path>, items: seq<Item>)
    ensures var c := Run(records, net, files, items);
            forall i :: 0 <= i < |items| && IsPackageFile(items[i].asset.name) ==>
              items[i] in c.downloads || InPlace(records, c.files, items[i])
    decreases |items|
  {
    hide IsPackageFile, DetectDistro, Destination, LocalPath;
    if items != [] {
      var n := |items| - 1;
      var before, c := Run(records, net, files, items[..n]), Run(records, net, files, items);
      DownloadedOrInPlace(records, net, files, items[..n]);
      assert before.downloads <= c.downloads && before.files <= c.files;
      forall i | 0 <= i < |items| && IsPackageFile(items[i].asset.name)
        ensures items[i] in c.downloads || InPlace(records, c.files, items[i])
      {
        if i < n {
          assert items[..n][i] == items[i];
        } else if !InPlace(records, before.files, items[n]) {
          assert c.downloads[|c.downloads| - 1] == items[n];
        }
      }
    }
  }

  /** The item is recorded with a digest and its file is in place from the start. */
  predicate Settled(records: Records, files: set<Path>, item: Item) {
    IsPackageFile(item.asset.name) ==> InPlace(records, files, item)
  }

  /** An item in place from the start of a cycle is not downloaded in it. */
  lemma {:induction false} SettledNotDownloaded(records: Records, net: Network, files: set<Path>, items: seq<Item>)
    ensures forall item :: item in Run(records, net, files, items).downloads ==> !Settled(records, files, item)
    decreases |items|
  {
    hide IsPackageFile, DetectDistro, Destination, LocalPath;
    if items != [] {
      var front := items[..|items| - 1];
      SettledNotDownloaded(records, net, files, front);
      FilesStay(records, net, files, front);
    }
  }

  /** The item is one of the packages. */
  predicate SyncedIn(packages: seq<Package>, item: Item) {
    && SingleName(item.asset.name) && IsPackageFile(item.asset.name)
    && exists i :: 0 <= i < |packages| && packages[i].key == KeyOf(item)
  }

  /**
    With the synced packages of one cycle stored, the next one downloads none of
    them, whatever releases it sees and whatever files were added meanwhile.
  */
  lemma SyncedNotDownloadedAgain(records: Records, net: Network, files: set<Path>, items: seq<Item>,
                                 net': Network, files': set<Path>, items': seq<Item>)
    requires Run(records, net, files, items).files <= files'
    ensures var packages := Run(records, net, files, items).result.packages;
            forall item :: item in Run(Upserted(records, packages), net', files', items').downloads
                           ==> !SyncedIn(packages, item)
  {
    hide Run, Settled, SyncedIn;
    var packages := Run(records, net, files, items).result.packages;
    var now := Upserted(records, packages);
    SyncedAreFound(records, net, files, items);
    SettledNotDownloaded(now, net', files', items');
    forall item | SyncedIn(packages, item) ensures Settled(now, files', item) {
      SyncedIsSettled(records, packages, files', item);
    }
  }

  lemma SyncedIsSettled(records: Records, packages: seq<Package>, files: set<Path>, item: Item)
    requires AllFound(packages, files) && SyncedIn(packages, item)
    ensures Settled(Upserted(records, packages), files, item)
  {
    hide IsPackageFile, Upserted;
    var i :| 0 <= i < |packages| && packages[i].key == KeyOf(item);
    assert Found(packages[i], files);
  }

  predicate AllSettled(records: Records, files: set<Path>, items: seq<Item>) {
    forall i :: 0 <= i < |items| ==> Settled(records, files, items[i])
  }

  /** A cycle over settled items skips them all and changes nothing. */
  lemma {:induction false} SettledAreSkipped(records: Records, net: Network, files: set<Path>, items: seq<Item>)
    requires AllSettled(records, files, items)
    ensures Run(records, net, files, items) == Cycle(SyncResult(0, |items|, [], []), files, [])
    decreases |items|
  {
    hide IsPackageFile, InPlace;
    if items != [] {
      var front := items[..|items| - 1];
      SettledAreSkipped(records, net, files, front);
      assert Settled(records, files, items[|items| - 1]);
    }
  }

  predicate SingleNames(items: seq<Item>) {
    forall i :: 0 <= i < |items| ==> SingleName(items[i].asset.name)
  }

  /** In a cycle without errors every item was skipped as settled, or synced. */
  lemma {:induction false} SettledOrSynced(records: Records, net: Network, files: set<Path>, items: seq<Item>)
    requires SingleNames(items) && Run(records, net, files, items).result.errors == []
    ensures var c := Run(records, net, files, items);
            forall i :: 0 <= i < |items| ==> Settled(records, c.files, items[i]) || SyncedIn(c.result.packages, items[i])
    decreases |items|
  {
    hide IsPackageFile, DetectDistro, Destination, LocalPath, SingleName;
    if items != [] {
      var n := |items| - 1;
      var before, c := Run(records, net, files, items[..n]), Run(records, net, files, items);
      SettledOrSynced(records, net, files, items[..n]);
      forall i | 0 <= i < |items| ensures Settled(records, c.files, items[i]) || SyncedIn(c.result.packages, items[i]) {
        if i < n {
          assert items[..n][i] == items[i];
          if SyncedIn(before.result.packages, items[i]) {
            SyncedStays(before.result.packages, c.result.packages, items[i]);
          }
        } else if IsPackageFile(items[n].asset.name) && !InPlace(records, before.files, items[n]) {
          assert c.result.packages[|before.result.packages|].key == KeyOf(items[n]);
        }
      }
    }
  }

  lemma SyncedStays(before: seq<Package>, after: seq<Package>, item: Item)
    requires before <= after && SyncedIn(before, item)
    ensures SyncedIn(after, item)
  {
    hide IsPackageFile;
    var i :| 0 <= i < |before| && before[i].key == KeyOf(item);
    assert after[i].key == KeyOf(item);
  }

  /** After a cycle without errors, with its packages stored, the next over the same releases does nothing. */
  lemma NothingLeftToDo(records: Records, net: Network, files: set<Path>, items: seq<Item>, net': Network)
    requires SingleNames(items) && Run(records, net, files, items).result.errors == []
    ensures var c := Run(records, net, files, items);
            Run(Upserted(records, c.result.packages), net', c.files, items)
            == Cycle(SyncResult(0, |items|, [], []), c.files, [])
  {
    hide Run, SyncedIn;
    var c := Run(records, net, files, items);
    var now := Upserted(records, c.result.packages);
    SyncedAreFound(records, net, files, items);
    SettledOrSynced(records, net, files, items);
    forall i | 0 <= i < |items| ensures Settled(now, c.files, items[i]) {
      if SyncedIn(c.result.packages, items[i]) {
        SyncedIsSettled(records, c.result.packages, c.files, items[i]);
      }
    }
    SettledAreSkipped(now, net', c.files, items);
  }
}
