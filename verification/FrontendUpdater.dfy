/**
 * Content-addressed frontend snapshots behind a saved selection.  The disk is recorded after every single
 * change, so that a statement about the whole record holds wherever the process is interrupted.
 */
module FrontendUpdater {
  import opened Prelude
  import JsText

  datatype Node = File(content: string) | Other

  /** The regular files of a directory, by relative path; `Other` is a link or a directory. */
  type Tree = map<string, Node>

  datatype Asset = Asset(path: string, bytes: int, sha: string)

  datatype Manifest = Manifest(revision: string, version: string, files: seq<Asset>)

  /** `manifest`, `bytes` and `sha` are the update reference. */
  datatype Info = Info(revision: string, version: string, builtAt: string, manifest: string, bytes: int, sha: string)

  datatype Snapshot = Snapshot(tree: Tree, info: Info, manifest: Manifest)

  /** What the platform computes: the hash, JSON, and properties of Unicode text. */
  datatype World = World(digest: string -> string, manifestOf: string -> Option<Manifest>,
                         infoOf: string -> Option<Info>, encode: Info -> string,
                         canonical: string -> string, control: char -> bool, blank: string -> bool,
                         utf8: string -> nat, uuid: string -> bool)

  predicate Reencoded(w: World, info: Info) {
    w.infoOf(w.encode(info)) == Some(info)
  }

  /** Decoded build metadata survive encoding and decoding, and lower-case ASCII names are canonical. */
  ghost predicate Lawful(w: World) {
    && (forall data :: w.infoOf(data).Some? ==> Reencoded(w, w.infoOf(data).value))
    && w.canonical(MANIFEST) == MANIFEST && w.canonical(BUILD_INFO) == BUILD_INFO
  }

  const INFO_LIMIT: nat := 65_536
  const MANIFEST_LIMIT: nat := 8_388_608
  const TOTAL_LIMIT: nat := 1_000_000_000
  const MANIFEST := "frontend-update.json"
  const BUILD_INFO := "build-info.json"
  const STAGING := "staging-"
  const REQUIRED: set<string> :=
      {"index.html", "api/index.html", "api/webapp-client.json", "collaboration/index.html",
          "collaboration/webapp-client.json"}

  predicate Hex(value: string) {
    forall i :: 0 <= i < |value| ==> '0' <= value[i] <= '9' || 'a' <= value[i] <= 'f'
  }

  predicate IsHash(value: string) {
    |value| == 64 && Hex(value)
  }

  predicate Valid(w: World, info: Info) {
    && |info.revision| == 40 && Hex(info.revision) && !w.blank(info.version) && info.builtAt != ""
    && info.manifest == MANIFEST && IsHash(info.sha) && 0 < info.bytes <= MANIFEST_LIMIT
  }

  /** Metadata that a deployment can offer: they decode from a download within the limit. */
  ghost predicate Offered(w: World, info: Info) {
    Valid(w, info) && exists data :: Download(w, data, info)
  }

  predicate Download(w: World, data: string, info: Info) {
    |data| <= INFO_LIMIT && w.infoOf(data) == Some(info)
  }

  /** The metadata, written back by the updater, are within the limit for reading them. */
  predicate Readable(w: World, info: Info) {
    |w.encode(info)| <= INFO_LIMIT
  }

  // ---------- manifests ----------

  predicate AssetOk(w: World, a: Asset) {
    && (forall c :: c in JsText.Split(a.path, '/') ==> c != "" && c != "." && c != "..")
    && (forall c :: c in a.path ==> c != '\\' && !w.control(c))
    && w.utf8(a.path) <= 4096 && w.canonical(a.path) != BUILD_INFO && w.canonical(a.path) != MANIFEST
    && IsHash(a.sha) && a.bytes >= 0
  }

  function Total(files: seq<Asset>): int {
    if files == [] then 0 else Total(files[..|files| - 1]) + files[|files| - 1].bytes
  }

  /** Paths differ even when case is ignored, and a hash always stands for the same size. */
  ghost predicate Consistent(w: World, files: seq<Asset>) {
    && (forall i :: 0 <= i < |files| ==> AssetOk(w, files[i]))
    && (forall i, j :: 0 <= i < j < |files| ==> w.canonical(files[i].path) != w.canonical(files[j].path))
    && (forall i, j :: 0 <= i < j < |files| && files[i].sha == files[j].sha ==> files[i].bytes == files[j].bytes)
    && Total(files) <= TOTAL_LIMIT
  }

  function Paths(files: seq<Asset>): set<string> {
    set a | a in files :: a.path
  }

  ghost predicate ManifestOk(w: World, m: Manifest, info: Info) {
    && m.revision == info.revision && m.version == info.version && 0 < |m.files| <= 10_000
    && Consistent(w, m.files) && REQUIRED <= Paths(m.files)
  }

  /** The manifest that the bytes hold, if they are the ones the build refers to. */
  ghost function Decoded(w: World, data: string, info: Info): Option<Manifest> {
    if |data| != info.bytes || w.digest(data) != info.sha then None
    else match w.manifestOf(data)
      case Some(m) => if ManifestOk(w, m, info) then Some(m) else None
      case None => None
  }

  lemma {:induction false} TotalGrows(files: seq<Asset>, n: nat)
    requires n <= |files| && forall i :: 0 <= i < |files| ==> files[i].bytes >= 0
    ensures Total(files[..n]) <= Total(files)
    decreases |files|
  {
    if n < |files| {
      TotalGrows(files[..|files| - 1], n);
      assert files[..|files| - 1][..n] == files[..n];
    } else {
      assert files[..n] == files;
    }
  }

  /** What the pass remembers of the files behind it. */
  ghost predicate Remembers(w: World, files: seq<Asset>, paths: set<string>, sizes: map<string, int>) {
    && (forall p :: p in paths <==> exists k :: 0 <= k < |files| && w.canonical(files[k].path) == p)
    && (forall k :: 0 <= k < |files| ==> files[k].sha in sizes && sizes[files[k].sha] == files[k].bytes)
    && (forall h :: h in sizes ==> exists k :: 0 <= k < |files| && files[k].sha == h)
  }

  predicate Fits(w: World, a: Asset, paths: set<string>, sizes: map<string, int>, total: int) {
    && AssetOk(w, a) && w.canonical(a.path) !in paths
    && (a.sha in sizes ==> sizes[a.sha] == a.bytes)
    && a.bytes <= TOTAL_LIMIT - total
  }

  /** The first `n` files are consistent and remembered. */
  ghost predicate Passed(w: World, files: seq<Asset>, n: nat, paths: set<string>, sizes: map<string, int>, total: int) {
    n <= |files| && Consistent(w, files[..n]) && total == Total(files[..n]) && Remembers(w, files[..n], paths, sizes)
  }

  lemma PassOne(w: World, files: seq<Asset>, n: nat, paths: set<string>, sizes: map<string, int>, total: int)
    requires n < |files| && Passed(w, files, n, paths, sizes, total)
    ensures var a := files[n];
            if Fits(w, a, paths, sizes, total)
            then Passed(w, files, n + 1, paths + {w.canonical(a.path)}, sizes[a.sha := a.bytes], total + a.bytes)
            else !Consistent(w, files)
  {
    var a := files[n];
    ConsistentFits(w, files, n, paths, sizes);
    if Fits(w, a, paths, sizes, total) {
      assert files[..n + 1] == files[..n] + [a];
      NextIsConsistent(w, files[..n], a, paths, sizes);
      NextIsRemembered(w, files[..n], a, paths, sizes);
    }
  }

  lemma PassNone(w: World, files: seq<Asset>)
    ensures Passed(w, files, 0, {}, map[], 0)
  {
  }

  lemma PassAll(w: World, files: seq<Asset>, paths: set<string>, sizes: map<string, int>, total: int)
    requires Passed(w, files, |files|, paths, sizes, total)
    ensures Consistent(w, files)
  {
    assert files[..|files|] == files;
  }

  /** One pass over the files with the paths, the sizes and the running total. */
  method CheckFiles(w: World, files: seq<Asset>) returns (ok: bool)
    ensures ok == Consistent(w, files)
  {
    var paths: set<string>, sizes: map<string, int>, total := {}, map[], 0;
    PassNone(w, files);
    var i := 0;
    while i < |files|
      invariant Passed(w, files, i, paths, sizes, total)
      decreases |files| - i
    {
      var a := files[i];
      PassOne(w, files, i, paths, sizes, total);
      if !Fits(w, a, paths, sizes, total) {
        return false;
      }
      paths, sizes, total := paths + {w.canonical(a.path)}, sizes[a.sha := a.bytes], total + a.bytes;
      i := i + 1;
    }
    PassAll(w, files, paths, sizes, total);
    return true;
  }

  lemma NextIsApart(w: World, files: seq<Asset>, a: Asset, paths: set<string>, sizes: map<string, int>, i: nat)
    requires i < |files| && Remembers(w, files, paths, sizes) && Fits(w, a, paths, sizes, Total(files))
    ensures w.canonical(files[i].path) != w.canonical(a.path)
    ensures files[i].sha == a.sha ==> files[i].bytes == a.bytes
  {
    assert w.canonical(files[i].path) in paths;
  }

  lemma NextIsConsistent(w: World, files: seq<Asset>, a: Asset, paths: set<string>, sizes: map<string, int>)
    requires Consistent(w, files) && Remembers(w, files, paths, sizes) && Fits(w, a, paths, sizes, Total(files))
    ensures Consistent(w, files + [a]) && Total(files + [a]) == Total(files) + a.bytes
  {
    assert (files + [a])[..|files|] == files;
    forall i: nat | i < |files|
      ensures w.canonical(files[i].path) != w.canonical(a.path) && (files[i].sha == a.sha ==> files[i].bytes == a.bytes)
    {
      NextIsApart(w, files, a, paths, sizes, i);
    }
    NextPathIsNew(w, files, a);
    NextSizeIsKnown(files, a);
  }

  lemma NextPathIsNew(w: World, files: seq<Asset>, a: Asset)
    requires forall i, j :: 0 <= i < j < |files| ==> w.canonical(files[i].path) != w.canonical(files[j].path)
    requires forall i :: 0 <= i < |files| ==> w.canonical(files[i].path) != w.canonical(a.path)
    ensures var more := files + [a];
            forall i, j :: 0 <= i < j < |more| ==> w.canonical(more[i].path) != w.canonical(more[j].path)
  {
  }

  lemma NextSizeIsKnown(files: seq<Asset>, a: Asset)
    requires forall i, j :: 0 <= i < j < |files| && files[i].sha == files[j].sha ==> files[i].bytes == files[j].bytes
    requires forall i :: 0 <= i < |files| && files[i].sha == a.sha ==> files[i].bytes == a.bytes
    ensures var more := files + [a];
            forall i, j :: 0 <= i < j < |more| && more[i].sha == more[j].sha ==> more[i].bytes == more[j].bytes
  {
  }

  lemma NextIsRemembered(w: World, files: seq<Asset>, a: Asset, paths: set<string>, sizes: map<string, int>)
    requires Remembers(w, files, paths, sizes) && (a.sha in sizes ==> sizes[a.sha] == a.bytes)
    ensures Remembers(w, files + [a], paths + {w.canonical(a.path)}, sizes[a.sha := a.bytes])
  {
    var more, paths', sizes' := files + [a], paths + {w.canonical(a.path)}, sizes[a.sha := a.bytes];
    assert more[|files|] == a;
    forall p ensures p in paths' <==> exists k :: 0 <= k < |more| && w.canonical(more[k].path) == p {
      if p in paths {
        var k :| 0 <= k < |files| && w.canonical(files[k].path) == p;
        assert more[k] == files[k];
      }
      if k :| 0 <= k < |more| && w.canonical(more[k].path) == p {
        assert k < |files| ==> files[k] == more[k];
      }
    }
    forall h | h in sizes' ensures exists k :: 0 <= k < |more| && more[k].sha == h {
      if h in sizes {
        var k :| 0 <= k < |files| && files[k].sha == h;
        assert more[k] == files[k];
      }
    }
  }

  lemma ConsistentFits(w: World, files: seq<Asset>, i: nat, paths: set<string>, sizes: map<string, int>)
    requires i < |files| && Remembers(w, files[..i], paths, sizes)
    ensures Consistent(w, files) ==> Fits(w, files[i], paths, sizes, Total(files[..i]))
  {
    if Consistent(w, files) {
      TotalGrows(files, i + 1);
      assert files[..i + 1][..i] == files[..i];
      forall k | 0 <= k < i ensures w.canonical(files[..i][k].path) != w.canonical(files[i].path) {
        assert files[..i][k] == files[k];
      }
    }
  }

  method DecodeManifest(w: World, data: string, info: Info) returns (manifest: Option<Manifest>)
    ensures manifest == Decoded(w, data, info)
  {
    if |data| != info.bytes || w.digest(data) != info.sha {
      return None;
    }
    var m := w.manifestOf(data);
    if m.None? || m.value.revision != info.revision || m.value.version != info.version || m.value.files == []
      || |m.value.files| > 10_000 {
      return None;
    }
    var ok := CheckFiles(w, m.value.files);
    if !ok || !(REQUIRED <= Paths(m.value.files)) {
      return None;
    }
    return m;
  }

  // ---------- snapshots ----------

  predicate IsFile(tree: Tree, path: string) {
    path in tree && tree[path].File?
  }

  /** The file at the path has the declared size and hash. */
  predicate Verified(w: World, tree: Tree, a: Asset) {
    IsFile(tree, a.path) && |tree[a.path].content| == a.bytes && w.digest(tree[a.path].content) == a.sha
  }

  ghost function Load(w: World, tree: Tree): Option<Snapshot> {
    if !IsFile(tree, BUILD_INFO) || |tree[BUILD_INFO].content| > INFO_LIMIT then None
    else match w.infoOf(tree[BUILD_INFO].content)
      case None => None
      case Some(info) =>
        if !Valid(w, info) || !IsFile(tree, info.manifest) || |tree[info.manifest].content| > info.bytes then None
        else match Decoded(w, tree[info.manifest].content, info)
          case None => None
          case Some(m) =>
              if forall path :: path in REQUIRED ==> IsFile(tree, path) then Some(Snapshot(tree, info, m)) else None
  }

  ghost predicate AllVerified(w: World, s: Snapshot) {
    forall a :: a in s.manifest.files ==> Verified(w, s.tree, a)
  }

  datatype Selection = Selection(bundled: string, active: string, previous: Option<string>)

  datatype SelectionFile = Absent | Malformed | Saved(selection: Selection)

  /** The storage directory: the selection and its sub-directories. */
  datatype Disk = Disk(selection: SelectionFile, children: map<string, Tree>)

  ghost function SavedSnapshot(w: World, d: Disk, identity: string): Option<Snapshot> {
    if identity !in d.children then None
    else match Load(w, d.children[identity])
      case None => None
      case Some(s) => if s.info.sha == identity && AllVerified(w, s) then Some(s) else None
  }

  predicate WellFormed(s: Selection) {
    IsHash(s.bundled) && IsHash(s.active) && (s.previous.Some? ==> IsHash(s.previous.value))
  }

  predicate Selects(d: Disk, bundle: string) {
    d.selection.Saved? && WellFormed(d.selection.selection) && d.selection.selection.bundled == bundle
  }

  /** A selection for the bundle names a verified active snapshot. */
  ghost predicate Safe(w: World, d: Disk, bundle: string) {
    Selects(d, bundle) ==> SavedSnapshot(w, d, d.selection.selection.active).Some?
  }

  // ---------- what an installation leaves ----------

  /** The installed files: every asset as declared, and the two metadata files. */
  ghost predicate Installed(w: World, tree: Tree, info: Info, data: string, m: Manifest) {
    && Valid(w, info) && Decoded(w, data, info) == Some(m)
    && tree.Keys == Paths(m.files) + {MANIFEST, BUILD_INFO}
    && tree[MANIFEST] == File(data) && tree[BUILD_INFO] == File(w.encode(info))
    && (forall a :: a in m.files ==> Verified(w, tree, a))
  }

  /**
   * A fresh installation can be restored by later runs exactly when its metadata, encoded again, still fits
   * the limit that reading puts on it.
   */
  lemma InstalledIsRestorable(w: World, d: Disk, info: Info, data: string, m: Manifest)
    requires Reencoded(w, info) && info.sha in d.children && Installed(w, d.children[info.sha], info, data, m)
    ensures SavedSnapshot(w, d, info.sha)
            == if Readable(w, info) then Some(Snapshot(d.children[info.sha], info, m)) else None
  {
    InstalledLoads(w, d.children[info.sha], info, data, m);
  }

  lemma InstalledLoads(w: World, tree: Tree, info: Info, data: string, m: Manifest)
    requires Reencoded(w, info) && Installed(w, tree, info, data, m)
    ensures Load(w, tree) == if Readable(w, info) then Some(Snapshot(tree, info, m)) else None
  {
    forall path | path in REQUIRED ensures IsFile(tree, path) {
      assert path in Paths(m.files);
      var a :| a in m.files && a.path == path;
      assert Verified(w, tree, a);
    }
  }

  /** Directories other than the active one do not matter. */
  lemma SafeElsewhere(w: World, d: Disk, e: Disk, bundle: string)
    requires Safe(w, d, bundle) && e.selection == d.selection
    requires Selects(d, bundle) ==>
               var active := d.selection.selection.active;
               active in d.children ==> active in e.children && e.children[active] == d.children[active]
    ensures Safe(w, e, bundle)
  {
  }

  lemma StagingIsNoHash()
    ensures forall name :: JsText.StartsWith(name, STAGING) ==> !IsHash(name)
  {
    forall name | JsText.StartsWith(name, STAGING) ensures !IsHash(name) {
      assert name[0] == STAGING[0];
    }
  }

  /** The target and staging directories only. */
  predicate StagingOr(names: set<string>, target: string) {
    forall n :: n in names ==> n == target || JsText.StartsWith(n, STAGING)
  }

  lemma StagingIsTouched(staging: string, target: string)
    requires JsText.StartsWith(staging, STAGING)
    ensures StagingOr({staging, target}, target)
  {
  }

  // ---------- the disk over time ----------

  /** The disks agree outside the named directories. */
  ghost predicate Elsewhere(d: Disk, e: Disk, names: set<string>) {
    && e.selection == d.selection
    && forall n :: n !in names ==>
         (n in e.children <==> n in d.children) && (n in d.children ==> e.children[n] == d.children[n])
  }

  /** The record went on, touching the named directories only. */
  ghost predicate Extends(before: seq<Disk>, d: Disk, after: seq<Disk>, e: Disk, names: set<string>) {
    && before <= after && Elsewhere(d, e, names)
    && forall i :: |before| <= i < |after| ==> Elsewhere(d, after[i], names)
  }

  lemma ExtendsNot(before: seq<Disk>, d: Disk, names: set<string>)
    ensures Extends(before, d, before, d, names)
  {
  }

  lemma ExtendsTwice(a: seq<Disk>, d: Disk, b: seq<Disk>, e: Disk, c: seq<Disk>, f: Disk, names: set<string>,
                     more: set<string>)
    requires Extends(a, d, b, e, names) && Extends(b, e, c, f, more) && more <= names
    ensures Extends(a, d, c, f, names)
  {
    forall i | |a| <= i < |c| ensures Elsewhere(d, c[i], names) {
      assert i < |b| ==> c[i] == b[i];
    }
  }

  /** A run that leaves the selection and the active directory alone stays safe throughout. */
  lemma ExtendsSafely(w: World, before: seq<Disk>, d: Disk, after: seq<Disk>, e: Disk, names: set<string>,
                      bundle: string)
    requires Extends(before, d, after, e, names) && Safe(w, d, bundle)
    requires Selects(d, bundle) ==> d.selection.selection.active !in names
    ensures Safe(w, e, bundle) && forall i :: |before| <= i < |after| ==> Safe(w, after[i], bundle)
  {
    SafeElsewhere(w, d, e, bundle);
    forall i | |before| <= i < |after| ensures Safe(w, after[i], bundle) {
      SafeElsewhere(w, d, after[i], bundle);
    }
  }

  lemma ExtendsOnce(before: seq<Disk>, d: Disk, e: Disk, names: set<string>)
    requires Elsewhere(d, e, names)
    ensures Extends(before, d, before + [e], e, names)
  {
  }

  datatype Root = Bundled | Stored(identity: string)

  datatype Current = Current(root: Root, snapshot: Snapshot)

  /** What is to be run without an update: the selected snapshot, else its predecessor, else the bundle. */
  ghost predicate Choice(w: World, d: Disk, bundle: string, root: Root) {
    match root
    case Stored(id) =>
      && Selects(d, bundle) && SavedSnapshot(w, d, id).Some?
      && (id == d.selection.selection.active
          || (d.selection.selection.previous == Some(id)
              && SavedSnapshot(w, d, d.selection.selection.active).None?))
    case Bundled =>
      Selects(d, bundle) ==>
        && SavedSnapshot(w, d, d.selection.selection.active).None?
        && (d.selection.selection.previous.Some? ==>
              SavedSnapshot(w, d, d.selection.selection.previous.value).None?)
  }

  lemma ChoiceIsUnique(w: World, d: Disk, bundle: string, root: Root)
    requires Choice(w, d, bundle, root)
    ensures forall other :: Choice(w, d, bundle, other) ==> other == root
  {
  }

  /** The predecessor that a selection keeps. */
  function Predecessor(selection: Selection): Root {
    match selection.previous
    case Some(id) => Stored(id)
    case None => Bundled
  }

  /** The selection that replaces the current one. */
  function Replacement(updated: Current, current: Current, bundle: string): Selection {
    Selection(bundle, updated.snapshot.info.sha,
              if current.root.Bundled? then None else Some(current.snapshot.info.sha))
  }

  /** Where a local copy of an asset can be found. */
  datatype Location = InBundle(path: string) | InChild(child: string, path: string)

  function Found(d: Disk, bundle: Tree, location: Location): Option<Node> {
    match location
    case InBundle(path) => if path in bundle then Some(bundle[path]) else None
    case InChild(child, path) =>
        if child in d.children && path in d.children[child] then Some(d.children[child][path]) else None
  }

  /** A copy that can stand for every file of the manifest with the hash. */
  ghost predicate StandsFor(w: World, d: Disk, bundle: Tree, location: Location, sha: string, files: seq<Asset>) {
    var node := Found(d, bundle, location);
    && node.Some? && node.value.File? && w.digest(node.value.content) == sha
    && forall a :: a in files && a.sha == sha ==> |node.value.content| == a.bytes
  }

  /** There is a candidate for the hash, and it is intact. */
  ghost predicate Reusable(w: World, d: Disk, bundle: Tree, candidates: map<string, Location>, sha: string,
                           files: seq<Asset>) {
    sha in candidates && StandsFor(w, d, bundle, candidates[sha], sha, files)
  }

  lemma ReusableElsewhere(w: World, d: Disk, e: Disk, bundle: Tree, candidates: map<string, Location>, sha: string,
                          files: seq<Asset>, staging: string)
    requires Elsewhere(d, e, {staging})
    requires forall h :: h in candidates && candidates[h].InChild? ==> candidates[h].child != staging
    ensures Reusable(w, d, bundle, candidates, sha, files) ==> Reusable(w, e, bundle, candidates, sha, files)
  {
  }

  ghost predicate Distinct(s: seq<string>) {
    forall i, j :: 0 <= i < j < |s| ==> s[i] != s[j]
  }

  /** `staging` holds the first files, `verified` only copies that may be reused, and nothing was downloaded twice. */
  ghost predicate Filled(w: World, d: Disk, bundle: Tree, staging: string, files: seq<Asset>, n: nat,
                         verified: map<string, Location>, downloads: seq<string>) {
    && n <= |files| && staging in d.children && d.children[staging].Keys == Paths(files[..n])
    && (forall a :: a in files[..n] ==> Verified(w, d.children[staging], a))
    && (forall h :: h in verified ==> StandsFor(w, d, bundle, verified[h], h, files))
    && Distinct(downloads) && (forall h :: h in downloads ==> h in verified)
  }

  function Put(d: Disk, staging: string, path: string, content: string): Disk
    requires staging in d.children
  {
    d.(children := d.children[staging := d.children[staging][path := File(content)]])
  }

  lemma PutStands(w: World, d: Disk, bundle: Tree, staging: string, path: string, content: string, location: Location,
                  sha: string, files: seq<Asset>)
    requires staging in d.children && path !in d.children[staging] && StandsFor(w, d, bundle, location, sha, files)
    ensures StandsFor(w, Put(d, staging, path, content), bundle, location, sha, files)
  {
  }

  lemma PutVerified(w: World, d: Disk, staging: string, a: Asset, content: string, files: seq<Asset>)
    requires staging in d.children && a.path !in d.children[staging]
    requires |content| == a.bytes && w.digest(content) == a.sha
    requires forall b :: b in files ==> Verified(w, d.children[staging], b)
    ensures forall b :: b in files + [a] ==> Verified(w, Put(d, staging, a.path, content).children[staging], b)
  {
  }

  /** One more file, with content that was verified for it. */
  lemma FilledNext(w: World, d: Disk, bundle: Tree, staging: string, files: seq<Asset>, n: nat,
                   verified: map<string, Location>,
                   downloads: seq<string>, content: string)
    requires Filled(w, d, bundle, staging, files, n, verified, downloads) && n < |files| && Consistent(w, files)
    requires |content| == files[n].bytes && w.digest(content) == files[n].sha
    ensures Filled(w, Put(d, staging, files[n].path, content), bundle, staging, files, n + 1, verified, downloads)
    ensures StandsFor(w, Put(d, staging, files[n].path, content), bundle, InChild(staging, files[n].path),
              files[n].sha, files)
  {
    var e := Put(d, staging, files[n].path, content);
    NewPath(w, files, n);
    SameSize(w, files, n);
    assert files[..n + 1] == files[..n] + [files[n]];
    PutVerified(w, d, staging, files[n], content, files[..n]);
    PathsSnoc(files[..n], files[n]);
    AllStand(w, d, bundle, staging, files, verified, files[n].path, content);
    assert files[n] in files;
  }

  lemma PathsSnoc(files: seq<Asset>, a: Asset)
    ensures Paths(files + [a]) == Paths(files) + {a.path}
  {
  }

  lemma AllStand(w: World, d: Disk, bundle: Tree, staging: string, files: seq<Asset>, verified: map<string, Location>,
                 path: string, content: string)
    requires staging in d.children && path !in d.children[staging]
    requires forall h :: h in verified ==> StandsFor(w, d, bundle, verified[h], h, files)
    ensures forall h :: h in verified ==> StandsFor(w, Put(d, staging, path, content), bundle, verified[h], h, files)
  {
    forall h | h in verified ensures StandsFor(w, Put(d, staging, path, content), bundle, verified[h], h, files) {
      PutStands(w, d, bundle, staging, path, content, verified[h], h, files);
    }
  }

  lemma NewPath(w: World, files: seq<Asset>, n: nat)
    requires n < |files| && Consistent(w, files)
    ensures files[n].path !in Paths(files[..n])
  {
    forall a | a in files[..n] ensures a.path != files[n].path {
      var k :| 0 <= k < n && files[k] == a;
    }
  }

  lemma SameSize(w: World, files: seq<Asset>, n: nat)
    requires n < |files| && Consistent(w, files)
    ensures forall a :: a in files && a.sha == files[n].sha ==> a.bytes == files[n].bytes
  {
    forall a | a in files && a.sha == files[n].sha ensures a.bytes == files[n].bytes {
      var k :| 0 <= k < |files| && files[k] == a;
      assert k < n ==> files[k].bytes == files[n].bytes;
      assert n < k ==> files[n].bytes == files[k].bytes;
    }
  }

  /** What stays true of a disk when an installation goes wrong or is late. */
  lemma GenuineElsewhere(w: World, d: Disk, e: Disk, names: set<string>, identity: string)
    requires Elsewhere(d, e, names) && identity !in names
    ensures SavedSnapshot(w, e, identity) == SavedSnapshot(w, d, identity)
  {
  }

  /** The selection names the complete installation of the offered build. */
  ghost predicate Switched(w: World, d: Disk, bundle: string, info: Info) {
    && Selects(d, bundle) && d.selection.selection.active == info.sha && info.sha in d.children
    && exists data, m :: Installed(w, d.children[info.sha], info, data, m)
  }

  /** Such a selection is safe if and only if the metadata can be read back. */
  lemma SwitchedIsSafe(w: World, d: Disk, bundle: string, info: Info)
    requires Reencoded(w, info) && Switched(w, d, bundle, info)
    ensures Safe(w, d, bundle) <==> Readable(w, info)
  {
    var data, m :| Installed(w, d.children[info.sha], info, data, m);
    InstalledIsRestorable(w, d, info, data, m);
  }

  lemma SwitchedElsewhere(w: World, d: Disk, e: Disk, names: set<string>, bundle: string, info: Info)
    requires Switched(w, d, bundle, info) && Elsewhere(d, e, names) && info.sha !in names
    ensures Switched(w, e, bundle, info)
  {
    var data, m :| Installed(w, d.children[info.sha], info, data, m);
    assert Installed(w, e.children[info.sha], info, data, m);
  }

  /**
   * The disk of a run that began with the selection `start` and was offered `offer`: while the selection is
   * the old one it is safe, and the new one is safe if and only if the offered metadata can be read back.
   */
  ghost predicate Exact(w: World, d: Disk, bundle: string, start: SelectionFile, offer: Option<Info>) {
    if d.selection == start then Safe(w, d, bundle)
    else offer.Some? && Switched(w, d, bundle, offer.value) && (Safe(w, d, bundle) <==> Readable(w, offer.value))
  }

  ghost predicate AllExact(w: World, before: seq<Disk>, after: seq<Disk>, bundle: string, start: SelectionFile,
                           offer: Option<Info>) {
    before <= after && forall i :: |before| <= i < |after| ==> Exact(w, after[i], bundle, start, offer)
  }

  /** As long as the selection is the old one, the run is safe throughout. */
  lemma SafeIsExact(w: World, before: seq<Disk>, d: Disk, after: seq<Disk>, e: Disk, names: set<string>,
                    bundle: string, offer: Option<Info>)
    requires Extends(before, d, after, e, names) && Safe(w, d, bundle)
    requires Selects(d, bundle) ==> d.selection.selection.active !in names
    ensures Safe(w, e, bundle) && AllExact(w, before, after, bundle, d.selection, offer)
  {
    ExtendsSafely(w, before, d, after, e, names, bundle);
  }

  /** After the switch every disk names the new installation. */
  lemma SwitchedIsExact(w: World, before: seq<Disk>, d: Disk, after: seq<Disk>, e: Disk, names: set<string>,
                        bundle: string, start: SelectionFile, info: Info)
    requires Reencoded(w, info) && Extends(before, d, after, e, names) && Switched(w, d, bundle, info)
    requires info.sha !in names && d.selection != start
    ensures AllExact(w, before, after, bundle, start, Some(info))
  {
    forall i | |before| <= i < |after| ensures Exact(w, after[i], bundle, start, Some(info)) {
      SwitchedElsewhere(w, d, after[i], names, bundle, info);
      SwitchedIsSafe(w, after[i], bundle, info);
    }
  }

  lemma AllExactTwice(w: World, a: seq<Disk>, b: seq<Disk>, c: seq<Disk>, bundle: string, start: SelectionFile,
                      offer: Option<Info>)
    requires AllExact(w, a, b, bundle, start, offer) && AllExact(w, b, c, bundle, start, offer)
    ensures AllExact(w, a, c, bundle, start, offer)
  {
    forall i | |a| <= i < |c| ensures Exact(w, c[i], bundle, start, offer) {
      assert i < |b| ==> c[i] == b[i];
    }
  }

  /** What the next start runs on this disk: what was to be run at the beginning, or the offered build. */
  ghost predicate Chosen(w: World, d: Disk, bundle: string, root: Root, offer: Option<Info>) {
    Choice(w, d, bundle, root) || (offer.Some? && Choice(w, d, bundle, Stored(offer.value.sha)))
  }

  ghost predicate AllChosen(w: World, before: seq<Disk>, after: seq<Disk>, bundle: string, root: Root,
                            offer: Option<Info>) {
    before <= after && forall i :: |before| <= i < |after| ==> Chosen(w, after[i], bundle, root, offer)
  }

  lemma AllChosenTwice(w: World, a: seq<Disk>, b: seq<Disk>, c: seq<Disk>, bundle: string, root: Root,
                       offer: Option<Info>)
    requires AllChosen(w, a, b, bundle, root, offer) && AllChosen(w, b, c, bundle, root, offer)
    ensures AllChosen(w, a, c, bundle, root, offer)
  {
    forall i | |a| <= i < |c| ensures Chosen(w, c[i], bundle, root, offer) {
      assert i < |b| ==> c[i] == b[i];
    }
  }

  /** The choice depends on directories named by hashes only. */
  lemma ChoiceElsewhere(w: World, d: Disk, e: Disk, names: set<string>, bundle: string, root: Root)
    requires Elsewhere(d, e, names) && forall n :: n in names ==> !IsHash(n)
    ensures Choice(w, d, bundle, root) <==> Choice(w, e, bundle, root)
  {
    if Selects(d, bundle) {
      GenuineElsewhere(w, d, e, names, d.selection.selection.active);
      if d.selection.selection.previous.Some? {
        GenuineElsewhere(w, d, e, names, d.selection.selection.previous.value);
      }
    }
  }

  /** An installation in another directory than the chosen one can at most become the choice. */
  lemma InstallingIsChosen(w: World, d: Disk, e: Disk, names: set<string>, bundle: string, root: Root, info: Info)
    requires Elsewhere(d, e, names) && (forall n :: n in names && IsHash(n) ==> n == info.sha)
    requires Choice(w, d, bundle, root) && root != Stored(info.sha)
    ensures Chosen(w, e, bundle, root, Some(info))
  {
    if Selects(d, bundle) {
      var active, previous := d.selection.selection.active, d.selection.selection.previous;
      if active != info.sha {
        GenuineElsewhere(w, d, e, names, active);
      }
      if previous.Some? && previous.value != info.sha {
        GenuineElsewhere(w, d, e, names, previous.value);
      }
    }
  }

  lemma InstallingIsAllChosen(w: World, before: seq<Disk>, d: Disk, after: seq<Disk>, e: Disk, names: set<string>,
                              bundle: string, root: Root, info: Info)
    requires Extends(before, d, after, e, names) && (forall n :: n in names && IsHash(n) ==> n == info.sha)
    requires Choice(w, d, bundle, root) && root != Stored(info.sha)
    ensures AllChosen(w, before, after, bundle, root, Some(info))
  {
    forall i | |before| <= i < |after| ensures Chosen(w, after[i], bundle, root, Some(info)) {
      InstallingIsChosen(w, d, after[i], names, bundle, root, info);
    }
  }

  /** Only staging directories are touched. */
  lemma StagingIsAllChosen(w: World, before: seq<Disk>, d: Disk, after: seq<Disk>, e: Disk, names: set<string>,
                           bundle: string, root: Root, offer: Option<Info>)
    requires Extends(before, d, after, e, names) && (forall n :: n in names ==> !IsHash(n))
    requires Choice(w, d, bundle, root)
    ensures AllChosen(w, before, after, bundle, root, offer)
  {
    forall i | |before| <= i < |after| ensures Chosen(w, after[i], bundle, root, offer) {
      ChoiceElsewhere(w, d, after[i], names, bundle, root);
    }
  }

  /** After the switch the predecessor is what was run before. */
  lemma SwitchedIsChosen(w: World, e: Disk, bundle: string, updated: Current, current: Current)
    requires Selects(e, bundle) && e.selection == Saved(Replacement(updated, current, bundle))
    requires current.root.Stored? ==>
               current.root.identity == current.snapshot.info.sha && SavedSnapshot(w, e, current.root.identity).Some?
    ensures Chosen(w, e, bundle, current.root, Some(updated.snapshot.info))
  {
  }

  lemma SwitchedIsAllChosen(w: World, before: seq<Disk>, d: Disk, after: seq<Disk>, e: Disk, names: set<string>,
                            bundle: string, updated: Current, current: Current)
    requires Extends(before, d, after, e, names) && Selects(d, bundle)
    requires d.selection == Saved(Replacement(updated, current, bundle))
    requires current.root.Stored? ==>
               current.root.identity == current.snapshot.info.sha && current.root.identity !in names
               && SavedSnapshot(w, d, current.root.identity).Some?
    ensures AllChosen(w, before, after, bundle, current.root, Some(updated.snapshot.info))
  {
    forall i | |before| <= i < |after| ensures Chosen(w, after[i], bundle, current.root, Some(updated.snapshot.info)) {
      if current.root.Stored? {
        GenuineElsewhere(w, d, after[i], names, current.root.identity);
      }
      SwitchedIsChosen(w, after[i], bundle, updated, current);
    }
  }

  // ---------- the updater ----------

  /** Any call into the platform may fail at any point; downloads and the answer of the user are arbitrary. */
  class FrontendUpdater {
    const w: World
    var disk: Disk
    ghost var record: seq<Disk>
    ghost var downloads: seq<string>

    constructor (w: World, disk: Disk)
      ensures this.w == w && this.disk == disk && record == [] && downloads == []
    {
      this.w, this.disk := w, disk;
      record, downloads := [], [];
    }

    /** One change of the disk. */
    method Write(d: Disk)
      modifies this`disk, this`record
      ensures disk == d && record == old(record) + [d]
    {
      disk := d;
      record := record + [d];
    }

    /** Removal of a directory goes file by file and may stop anywhere. */
    method RemoveItem(name: string) returns (ok: bool)
      modifies this`disk, this`record
      ensures Extends(old(record), old(disk), record, disk, {name})
      ensures ok ==> disk.children == old(disk.children) - {name}
    {
      if name !in disk.children {
        return false;
      }
      var tree := disk.children[name];
      while tree.Keys != {}
        invariant name in disk.children && Extends(old(record), old(disk), record, disk, {name})
        invariant disk.children == old(disk.children)[name := tree]
        decreases |tree.Keys|
      {
        var stops: bool := *;
        if stops {
          return false;
        }
        var path :| path in tree;
        ghost var left := tree.Keys - {path};
        assert tree.Keys == left + {path};
        tree := tree - {path};
        assert tree.Keys == left;
        Write(disk.(children := disk.children[name := tree]));
      }
      var stops: bool := *;
      if stops {
        return false;
      }
      assert disk.children - {name} == old(disk.children) - {name};
      Write(disk.(children := disk.children - {name}));
      return true;
    }

    /** A file is written in two stages, of which the first may leave anything. */
    method PutFile(staging: string, path: string, content: string) returns (ok: bool)
      requires staging in disk.children
      modifies this`disk, this`record
      ensures Extends(old(record), old(disk), record, disk, {staging})
      ensures ok ==> disk == Put(old(disk), staging, path, content)
    {
      var partial: string := *;
      var stops: bool := *;
      if stops {
        return false;
      }
      var tree := disk.children[staging];
      Write(disk.(children := disk.children[staging := tree[path := File(partial)]]));
      stops := *;
      if stops {
        return false;
      }
      assert disk.children[staging := tree[path := File(content)]]
             == old(disk).children[staging := tree[path := File(content)]];
      Write(disk.(children := disk.children[staging := tree[path := File(content)]]));
      return true;
    }

    // ---------- reading snapshots ----------

    method LoadSnapshot(tree: Tree) returns (snapshot: Option<Snapshot>)
      ensures snapshot == Load(w, tree)
    {
      if !IsFile(tree, BUILD_INFO) || |tree[BUILD_INFO].content| > INFO_LIMIT {
        return None;
      }
      var info := w.infoOf(tree[BUILD_INFO].content);
      if info.None? || !Valid(w, info.value) {
        return None;
      }
      var path := info.value.manifest;
      if !IsFile(tree, path) || |tree[path].content| > info.value.bytes {
        return None;
      }
      var manifest := DecodeManifest(w, tree[path].content, info.value);
      if manifest.None? || exists required :: required in REQUIRED && !IsFile(tree, required) {
        return None;
      }
      return Some(Snapshot(tree, info.value, manifest.value));
    }

    method VerifyFiles(tree: Tree, files: seq<Asset>) returns (ok: bool)
      ensures ok == forall a :: a in files ==> Verified(w, tree, a)
    {
      var i := 0;
      while i < |files|
        invariant 0 <= i <= |files| && forall k :: 0 <= k < i ==> Verified(w, tree, files[k])
      {
        if !Verified(w, tree, files[i]) {
          assert files[i] in files;
          return false;
        }
        i := i + 1;
      }
      return true;
    }

    method SavedAt(identity: string) returns (snapshot: Option<Snapshot>)
      ensures snapshot == SavedSnapshot(w, disk, identity)
    {
      if identity !in disk.children {
        return None;
      }
      snapshot := LoadSnapshot(disk.children[identity]);
      if snapshot.None? || snapshot.value.info.sha != identity {
        return None;
      }
      var ok := VerifyFiles(snapshot.value.tree, snapshot.value.manifest.files);
      if !ok {
        return None;
      }
    }

    /** A verified saved snapshot, or the bundle. */
    ghost predicate Genuine(current: Current, bundled: Snapshot)
      reads this
    {
      match current.root
      case Bundled => current.snapshot == bundled
      case Stored(id) => IsHash(id) && SavedSnapshot(w, disk, id) == Some(current.snapshot)
    }

    /** What the selection asks for, its predecessor, or the bundle. */
    method Restore(bundled: Snapshot) returns (current: Current)
      ensures Genuine(current, bundled) && Choice(w, disk, bundled.info.sha, current.root)
    {
      current := Current(Bundled, bundled);
      if !Selects(disk, bundled.info.sha) {
        return;
      }
      var selection := disk.selection.selection;
      var active := SavedAt(selection.active);
      if active.Some? {
        return Current(Stored(selection.active), active.value);
      }
      if selection.previous.Some? {
        var previous := SavedAt(selection.previous.value);
        if previous.Some? {
          return Current(Stored(selection.previous.value), previous.value);
        }
      }
    }

    /** Removes what interrupted installations left; stops at the first failure. */
    method RemoveStaging() returns (ghost names: set<string>)
      modifies this`disk, this`record
      ensures Extends(old(record), old(disk), record, disk, names)
      ensures forall n :: n in names ==> JsText.StartsWith(n, STAGING) && w.uuid(n[|STAGING|..])
    {
      var left := set n | n in disk.children && JsText.StartsWith(n, STAGING) && w.uuid(n[|STAGING|..]);
      names := left;
      while left != {}
        invariant left <= names && Extends(old(record), old(disk), record, disk, names)
        decreases |left|
      {
        var n :| n in left;
        ghost var r, d := record, disk;
        var ok := RemoveItem(n);
        ExtendsTwice(old(record), old(disk), r, d, record, disk, names, {n});
        if !ok {
          return;
        }
        left := left - {n};
      }
    }

    // ---------- installing ----------

    /** The copies at hand; the running snapshot is preferred to the bundle. */
    method Candidates(current: Current, bundled: Snapshot) returns (candidates: map<string, Location>)
      ensures forall a :: a in current.snapshot.manifest.files || a in bundled.manifest.files ==> a.sha in candidates
      ensures forall h :: h in candidates && candidates[h].InChild? ==> current.root == Stored(candidates[h].child)
    {
      candidates := map[];
      var i := 0;
      while i < |bundled.manifest.files|
        invariant 0 <= i <= |bundled.manifest.files|
        invariant forall k :: 0 <= k < i ==> bundled.manifest.files[k].sha in candidates
        invariant forall h :: h in candidates ==> candidates[h].InBundle?
      {
        candidates := candidates[bundled.manifest.files[i].sha := InBundle(bundled.manifest.files[i].path)];
        i := i + 1;
      }
      var files := current.snapshot.manifest.files;
      i := 0;
      while i < |files|
        invariant 0 <= i <= |files|
        invariant forall k :: 0 <= k < i ==> files[k].sha in candidates
        invariant forall k :: 0 <= k < |bundled.manifest.files| ==> bundled.manifest.files[k].sha in candidates
        invariant forall h :: h in candidates && candidates[h].InChild? ==> current.root == Stored(candidates[h].child)
      {
        var path := files[i].path;
        candidates :=
            candidates[files[i].sha :=
                if current.root.Bundled? then InBundle(path) else InChild(current.root.identity, path)];
        i := i + 1;
      }
    }

    /** Fills the staging directory file by file, reusing what can be verified and downloading the rest. */
    method FillStaging(staging: string, files: seq<Asset>, candidates: map<string, Location>, bundle: Tree)
      returns (ok: bool)
      requires staging in disk.children && disk.children[staging] == map[] && Consistent(w, files)
      requires forall h :: h in candidates && candidates[h].InChild? ==> candidates[h].child != staging
      modifies this
      ensures Extends(old(record), old(disk), record, disk, {staging})
      ensures Fetched(old(downloads), downloads, old(disk), bundle, candidates, files)
      ensures ok ==>
                staging in disk.children && disk.children[staging].Keys == Paths(files) && forall a :: a in files ==>
                    Verified(w, disk.children[staging], a)
    {
      var verified: map<string, Location> := map[];
      ghost var fetched := [];
      var i := 0;
      while i < |files|
        invariant 0 <= i <= |files| && downloads == old(downloads) + fetched && Distinct(fetched)
        invariant forall h :: h in fetched ==> !Reusable(w, old(disk), bundle, candidates, h, files)
        invariant Extends(old(record), old(disk), record, disk, {staging})
        invariant Filled(w, disk, bundle, staging, files, i, verified, fetched)
      {
        ghost var r, d := record, disk;
        ok, verified, fetched := PlaceFile(staging, files, i, candidates, bundle, verified, fetched);
        ExtendsTwice(old(record), old(disk), r, d, record, disk, {staging}, {staging});
        ReusableElsewhere(w, old(disk), d, bundle, candidates, files[i].sha, files, staging);
        if !ok {
          assert downloads[|old(downloads)|..] == fetched;
          return;
        }
        i := i + 1;
      }
      assert files[..i] == files && downloads[|old(downloads)|..] == fetched;
      ok := true;
    }

    /** No hash was downloaded twice, and none that an intact candidate stood for. */
    ghost predicate Fetched(before: seq<string>, after: seq<string>, d: Disk, bundle: Tree,
                            candidates: map<string, Location>, files: seq<Asset>)
      reads this
    {
      && before <= after && Distinct(after[|before|..])
      && forall h :: h in after[|before|..] ==> !Reusable(w, d, bundle, candidates, h, files)
    }

    /** A candidate is verified at its first use. */
    method TryCandidate(staging: string, files: seq<Asset>, i: nat, candidates: map<string, Location>, bundle: Tree,
                        known: map<string, Location>, ghost fetched: seq<string>)
      returns (verified: map<string, Location>)
      requires i < |files| && Consistent(w, files) && Filled(w, disk, bundle, staging, files, i, known, fetched)
      ensures Filled(w, disk, bundle, staging, files, i, verified, fetched)
      ensures files[i].sha !in verified ==> !Reusable(w, disk, bundle, candidates, files[i].sha, files)
    {
      var a := files[i];
      SameSize(w, files, i);
      verified := known;
      if a.sha !in known && a.sha in candidates {
        var found := Found(disk, bundle, candidates[a.sha]);
        if found.Some? && found.value.File? && |found.value.content| == a.bytes
          && w.digest(found.value.content) == a.sha {
          verified := known[a.sha := candidates[a.sha]];
        } else {
          assert a in files;
        }
      }
    }

    /** The content of a reusable copy, or of one download that passes verification. */
    method PlaceFile(staging: string, files: seq<Asset>, i: nat, candidates: map<string, Location>, bundle: Tree,
                     known: map<string, Location>, ghost before: seq<string>)
      returns (ok: bool, verified: map<string, Location>, ghost fetched: seq<string>)
      requires i < |files| && Consistent(w, files) && Filled(w, disk, bundle, staging, files, i, known, before)
      modifies this
      ensures Extends(old(record), old(disk), record, disk, {staging})
      ensures Distinct(fetched)
      ensures (fetched == before && downloads == old(downloads))
              || (fetched == before + [files[i].sha] && downloads == old(downloads) + [files[i].sha]
                  && !Reusable(w, old(disk), bundle, candidates, files[i].sha, files))
      ensures ok ==> Filled(w, disk, bundle, staging, files, i + 1, verified, fetched)
    {
      var a := files[i];
      fetched := before;
      verified := TryCandidate(staging, files, i, candidates, bundle, known, before);
      if a.sha in verified {
        ok := PlaceCopy(staging, files, i, bundle, verified, before);
      } else {
        downloads, fetched := downloads + [a.sha], before + [a.sha];
        ok := PlaceDownload(staging, files, i, bundle, verified, before);
        verified := verified[a.sha := InChild(staging, a.path)];
      }
    }

    method PlaceCopy(staging: string, files: seq<Asset>, i: nat, bundle: Tree, verified: map<string, Location>,
                     ghost fetched: seq<string>) returns (ok: bool)
      requires i < |files| && Consistent(w, files)
               && Filled(w, disk, bundle, staging, files, i, verified, fetched) && files[i].sha in verified
      modifies this`disk, this`record
      ensures Extends(old(record), old(disk), record, disk, {staging})
      ensures ok ==> Filled(w, disk, bundle, staging, files, i + 1, verified, fetched)
    {
      assert StandsFor(w, disk, bundle, verified[files[i].sha], files[i].sha, files) && files[i] in files;
      var content := Found(disk, bundle, verified[files[i].sha]).value.content;
      ok := PutFile(staging, files[i].path, content);
      FilledNext(w, old(disk), bundle, staging, files, i, verified, fetched, content);
    }

    method PlaceDownload(staging: string, files: seq<Asset>, i: nat, bundle: Tree, verified: map<string, Location>,
                         ghost fetched: seq<string>) returns (ok: bool)
      requires i < |files| && Consistent(w, files)
               && Filled(w, disk, bundle, staging, files, i, verified, fetched) && files[i].sha !in verified
      modifies this`disk, this`record
      ensures Extends(old(record), old(disk), record, disk, {staging}) && Distinct(fetched + [files[i].sha])
      ensures ok ==>
                Filled(w, disk, bundle, staging, files, i + 1,
                       verified[files[i].sha := InChild(staging, files[i].path)], fetched + [files[i].sha])
    {
      var a := files[i];
      var content: string := *;
      ExtendsNot(record, disk, {staging});
      if |content| != a.bytes || w.digest(content) != a.sha {
        return false;
      }
      ok := PutFile(staging, a.path, content);
      FilledNext(w, old(disk), bundle, staging, files, i, verified, fetched, content);
    }

    /** A complete installation in the directory named by its manifest's hash. */
    ghost predicate Fresh(current: Current)
      reads this
    {
      && current.root.Stored? && current.root.identity == current.snapshot.info.sha
         && current.root.identity in disk.children
      && disk.children[current.root.identity] == current.snapshot.tree
      && exists data :: Installed(w, current.snapshot.tree, current.snapshot.info, data, current.snapshot.manifest)
    }

    /** Builds the snapshot aside and moves it into place; `names` are the directories that were touched. */
    method Install(info: Info, current: Current, bundled: Snapshot)
      returns (installed: Option<Current>, ghost names: set<string>)
      requires Lawful(w) && Valid(w, info) && (current.root.Stored? ==> IsHash(current.root.identity))
      modifies this
      ensures Extends(old(record), old(disk), record, disk, names)
      ensures StagingOr(names, info.sha)
      ensures old(downloads) <= downloads && Distinct(downloads[|old(downloads)|..])
      ensures installed.Some? ==> Fresh(installed.value) && installed.value.snapshot.info == info
    {
      names := {};
      ExtendsNot(record, disk, names);
      var data := Fetch();
      var staging := NewStaging();
      if data.None? || staging.None? {
        return None, names;
      }
      var manifest := DecodeManifest(w, data.value, info);
      if manifest.None? {
        return None, names;
      }
      names := {staging.value, info.sha};
      StagingIsTouched(staging.value, info.sha);
      var ok := InstallAt(staging.value, info, data.value, manifest.value, current, bundled);
      if ok {
        PlacedIsFresh(info, data.value, manifest.value);
        return Some(Placed(info, manifest.value)), names;
      }
      return None, names;
    }

    /** The snapshot in the directory named by its hash. */
    function Placed(info: Info, manifest: Manifest): Current
      requires info.sha in disk.children
      reads this
    {
      Current(Stored(info.sha), Snapshot(disk.children[info.sha], info, manifest))
    }

    lemma PlacedIsFresh(info: Info, data: string, manifest: Manifest)
      requires info.sha in disk.children && Installed(w, disk.children[info.sha], info, data, manifest)
      ensures Fresh(Placed(info, manifest))
    {
    }

    /** A name that no directory has. */
    method NewStaging() returns (staging: Option<string>)
      ensures staging.Some? ==> staging.value !in disk.children && JsText.StartsWith(staging.value, STAGING)
    {
      var suffix := Fetch();
      if suffix.None? || STAGING + suffix.value in disk.children {
        return None;
      }
      return Some(STAGING + suffix.value);
    }

    method InstallAt(staging: string, info: Info, data: string, manifest: Manifest, current: Current,
                     bundled: Snapshot) returns (ok: bool)
      requires Lawful(w) && Valid(w, info) && Decoded(w, data, info) == Some(manifest) && staging !in disk.children
      requires JsText.StartsWith(staging, STAGING) && (current.root.Stored? ==> IsHash(current.root.identity))
      modifies this
      ensures Extends(old(record), old(disk), record, disk, {staging, info.sha})
      ensures old(downloads) <= downloads && Distinct(downloads[|old(downloads)|..])
      ensures ok ==> info.sha in disk.children && Installed(w, disk.children[info.sha], info, data, manifest)
    {
      ghost var names := {staging, info.sha};
      StagingIsNoHash();
      ok := Stage(staging, info, data, manifest, current, bundled);
      ghost var r, d := record, disk;
      if ok {
        ok := MoveIntoPlace(staging, info.sha);
        ExtendsTwice(old(record), old(disk), r, d, record, disk, names, names);
      }
      if !ok {
        r, d := record, disk;
        var removed := RemoveItem(staging);
        ExtendsTwice(old(record), old(disk), r, d, record, disk, names, {staging});
      }
    }

    /** The complete snapshot in the staging directory. */
    method Stage(staging: string, info: Info, data: string, manifest: Manifest, current: Current, bundled: Snapshot)
      returns (ok: bool)
      requires Lawful(w) && Valid(w, info) && Decoded(w, data, info) == Some(manifest) && staging !in disk.children
      requires !IsHash(staging) && (current.root.Stored? ==> IsHash(current.root.identity))
      modifies this
      ensures Extends(old(record), old(disk), record, disk, {staging, info.sha})
      ensures old(downloads) <= downloads && Distinct(downloads[|old(downloads)|..])
      ensures ok ==> staging in disk.children && Installed(w, disk.children[staging], info, data, manifest)
    {
      ghost var names := {staging, info.sha};
      Write(disk.(children := disk.children[staging := map[]]));
      ExtendsOnce(old(record), old(disk), disk, names);
      ghost var r, d := record, disk;
      var candidates := Candidates(current, bundled);
      ok := FillStaging(staging, manifest.files, candidates, bundled.tree);
      ExtendsTwice(old(record), old(disk), r, d, record, disk, names, {staging});
      if ok {
        r, d := record, disk;
        ok := WriteMetadata(staging, info, data, manifest);
        ExtendsTwice(old(record), old(disk), r, d, record, disk, names, {staging});
      }
    }

    method WriteMetadata(staging: string, info: Info, data: string, manifest: Manifest) returns (ok: bool)
      requires Lawful(w) && Valid(w, info) && Decoded(w, data, info) == Some(manifest) && staging in disk.children
      requires disk.children[staging].Keys == Paths(manifest.files) && forall a :: a in manifest.files ==>
                 Verified(w, disk.children[staging], a)
      modifies this`disk, this`record
      ensures Extends(old(record), old(disk), record, disk, {staging})
      ensures ok ==> staging in disk.children && Installed(w, disk.children[staging], info, data, manifest)
    {
      var tree := disk.children[staging];
      MetadataKeepsFiles(w, manifest.files, tree, File(data), File(w.encode(info)));
      ok := PutFile(staging, MANIFEST, data);
      if ok {
        ghost var r, d := record, disk;
        ok := PutFile(staging, BUILD_INFO, w.encode(info));
        ExtendsTwice(old(record), old(disk), r, d, record, disk, {staging}, {staging});
        assert ok ==> disk.children[staging] == tree[MANIFEST := File(data)][BUILD_INFO := File(w.encode(info))];
      }
    }

    /** Replaces what is there; the replacement itself is one change. */
    method MoveIntoPlace(staging: string, target: string) returns (ok: bool)
      requires staging in disk.children && staging != target
      modifies this`disk, this`record
      ensures Extends(old(record), old(disk), record, disk, {staging, target})
      ensures ok ==> target in disk.children && disk.children[target] == old(disk).children[staging]
    {
      ghost var names := {staging, target};
      var tree := disk.children[staging];
      ExtendsNot(record, disk, names);
      if target in disk.children {
        ok := RemoveItem(target);
        ExtendsTwice(old(record), old(disk), old(record), old(disk), record, disk, names, {target});
        if !ok {
          return;
        }
      }
      ok := *;
      if ok {
        ghost var r, d := record, disk;
        Write(disk.(children := (disk.children - {staging})[target := tree]));
        ExtendsOnce(r, d, disk, names);
        ExtendsTwice(old(record), old(disk), r, d, record, disk, names, names);
      }
    }

    // ---------- preparing ----------

    /** Removes snapshots that are not retained; stops at the first failure. */
    method RemoveOld(retained: set<string>) returns (ghost names: set<string>)
      modifies this`disk, this`record
      ensures Extends(old(record), old(disk), record, disk, names) && names !! retained
    {
      var left := set n | n in disk.children && IsHash(n) && n !in retained;
      names := left;
      while left != {}
        invariant left <= names && Extends(old(record), old(disk), record, disk, names)
        decreases |left|
      {
        var n :| n in left;
        ghost var r, d := record, disk;
        var ok := RemoveItem(n);
        ExtendsTwice(old(record), old(disk), r, d, record, disk, names, {n});
        if !ok {
          return;
        }
        left := left - {n};
      }
    }

    /** Saved and verified in this run, freshly installed, or the bundle. */
    ghost predicate Sound(current: Current, bundled: Snapshot)
      reads this
    {
      Genuine(current, bundled) || Fresh(current)
    }

    lemma GenuineStays(d: Disk, current: Current, bundled: Snapshot, names: set<string>)
      requires current.root.Bundled? ==> current.snapshot == bundled
      requires current.root.Stored? ==>
                 IsHash(current.root.identity) && SavedSnapshot(w, d, current.root.identity) == Some(current.snapshot)
      requires Elsewhere(d, disk, names) && (current.root.Stored? ==> current.root.identity !in names)
      ensures Genuine(current, bundled)
    {
      if current.root.Stored? {
        GenuineElsewhere(w, d, disk, names, current.root.identity);
      }
    }

    /** What was to be run is run, or is kept as the verified predecessor of what is run. */
    ghost predicate Upholds(before: Disk, bundle: string, result: Current)
      reads this
    {
      || Choice(w, before, bundle, result.root)
      || (&& Fresh(result) && Selects(disk, bundle) && disk.selection.selection.active == result.root.identity
          && Choice(w, before, bundle, Predecessor(disk.selection.selection))
          && (disk.selection.selection.previous.Some? ==>
                SavedSnapshot(w, disk, disk.selection.selection.previous.value).Some?))
    }

    lemma IsUpheld(before: Disk, bundle: string, current: Current, result: Current)
      requires Choice(w, before, bundle, current.root) && IsHash(bundle)
      requires current.root.Stored? ==>
                 IsHash(current.root.identity) && current.snapshot.info.sha == current.root.identity
      requires result == current
               || (Fresh(result) && disk.selection == Saved(Replacement(result, current, bundle))
                   && (current.root.Stored? ==> SavedSnapshot(w, disk, current.root.identity).Some?))
      ensures Upholds(before, bundle, result)
    {
      if result != current {
        assert Predecessor(disk.selection.selection) == current.root;
      }
    }

    /** Switches to the installed snapshot and then drops what is no longer needed. */
    method Switch(updated: Current, current: Current, bundle: string)
      requires Fresh(updated) && Reencoded(w, updated.snapshot.info) && IsHash(bundle)
      requires current.root.Stored? ==> IsHash(current.snapshot.info.sha)
      modifies this`disk, this`record
      ensures Fresh(updated) && disk.selection == Saved(Replacement(updated, current, bundle))
      ensures current.root.Stored? ==>
                SavedSnapshot(w, disk, current.snapshot.info.sha)
                  == SavedSnapshot(w, old(disk), current.snapshot.info.sha)
      ensures forall start :: start != disk.selection ==>
                AllExact(w, old(record), record, bundle, start, Some(updated.snapshot.info))
      ensures Keeps(old(disk), current) ==>
                AllChosen(w, old(record), record, bundle, current.root, Some(updated.snapshot.info))
    {
      var info := updated.snapshot.info;
      var selection := Replacement(updated, current, bundle);
      Write(disk.(selection := Saved(selection)));
      assert Switched(w, disk, bundle, info);
      ghost var r, d := record, disk;
      ghost var names := RemoveOld({info.sha} + (if selection.previous.Some? then {selection.previous.value} else {}));
      forall start | start != d.selection ensures AllExact(w, old(record), record, bundle, start, Some(info)) {
        SwitchedIsSafe(w, d, bundle, info);
        assert AllExact(w, old(record), r, bundle, start, Some(info));
        SwitchedIsExact(w, r, d, record, disk, names, bundle, start, info);
        AllExactTwice(w, old(record), r, record, bundle, start, Some(info));
      }
      if current.root.Stored? {
        GenuineElsewhere(w, d, disk, names, current.snapshot.info.sha);
      }
      if Keeps(old(disk), current) {
        SwitchIsChosen(old(record), r, d, names, updated, current, bundle);
      }
    }

    /** The running snapshot, unless it is the bundle, is a verified one of the disk. */
    ghost predicate Keeps(d: Disk, current: Current) {
      current.root.Stored? ==>
        && current.root.identity == current.snapshot.info.sha
        && SavedSnapshot(w, d, current.root.identity).Some?
    }

    lemma SwitchIsChosen(before: seq<Disk>, r: seq<Disk>, d: Disk, names: set<string>, updated: Current,
                         current: Current, bundle: string)
      requires r == before + [d] && Extends(r, d, record, disk, names) && Selects(d, bundle)
      requires d.selection == Saved(Replacement(updated, current, bundle)) && Keeps(d, current)
      requires current.root.Stored? ==> current.root.identity !in names
      ensures AllChosen(w, before, record, bundle, current.root, Some(updated.snapshot.info))
    {
      SwitchedIsChosen(w, d, bundle, updated, current);
      SwitchedIsAllChosen(w, r, d, record, disk, names, bundle, updated, current);
      assert AllChosen(w, before, r, bundle, current.root, Some(updated.snapshot.info));
      AllChosenTwice(w, before, r, record, bundle, current.root, Some(updated.snapshot.info));
    }

    /** Whatever the network returns, if anything. */
    method Fetch() returns (data: Option<string>)
    {
      var reachable: bool := *;
      var content: string := *;
      return if reachable then Some(content) else None;
    }

    /** What the deployment offers: a download within the limit that decodes to valid metadata. */
    method Deployment() returns (info: Option<Info>)
      ensures info.Some? ==> Offered(w, info.value)
    {
      var data := Fetch();
      if data.None? || |data.value| > INFO_LIMIT {
        return None;
      }
      info := w.infoOf(data.value);
      if info.None? || !Valid(w, info.value) {
        return None;
      }
      assert Download(w, data.value, info.value);
    }

    /**
     * The update of the running snapshot, if there is one; whatever fails leaves the running snapshot.
     * `offer` is what the deployment offered.
     */
    method Update(current: Current, bundled: Snapshot) returns (result: Current, ghost offer: Option<Info>)
      requires Lawful(w) && Valid(w, bundled.info) && Genuine(current, bundled)
      requires Choice(w, disk, bundled.info.sha, current.root)
      modifies this
      ensures Sound(result, bundled)
      ensures result == current
              || (Fresh(result) && result.root.identity != current.snapshot.info.sha
                  && disk.selection == Saved(Replacement(result, current, bundled.info.sha)))
      ensures result != current && current.root.Stored? ==>
                SavedSnapshot(w, disk, current.root.identity) == Some(current.snapshot)
      ensures old(downloads) <= downloads && Distinct(downloads[|old(downloads)|..])
      ensures offer.Some? ==> Offered(w, offer.value)
      ensures AllChosen(w, old(record), record, bundled.info.sha, current.root, offer)
      ensures Safe(w, old(disk), bundled.info.sha) ==>
                AllExact(w, old(record), record, bundled.info.sha, old(disk.selection), offer)
    {
      var info := Deployment();
      offer := info;
      if info.None? || !Differs(current.snapshot.info, info.value) {
        return current, offer;
      }
      var confirmed: bool := *;
      if HasSuffix(current.snapshot.info.version, "-development") && !confirmed {
        return current, offer;
      }
      result := Renew(info.value, current, bundled);
    }

    /** Installs the offered build and switches to it. */
    method Renew(info: Info, current: Current, bundled: Snapshot) returns (result: Current)
      requires Lawful(w) && Offered(w, info) && Valid(w, bundled.info) && info.sha != current.snapshot.info.sha
      requires Genuine(current, bundled) && Choice(w, disk, bundled.info.sha, current.root)
      modifies this
      ensures Sound(result, bundled)
      ensures result == current
              || (Fresh(result) && result.root.identity == info.sha
                  && disk.selection == Saved(Replacement(result, current, bundled.info.sha)))
      ensures result != current && current.root.Stored? ==>
                SavedSnapshot(w, disk, current.root.identity) == Some(current.snapshot)
      ensures old(downloads) <= downloads && Distinct(downloads[|old(downloads)|..])
      ensures AllChosen(w, old(record), record, bundled.info.sha, current.root, Some(info))
      ensures Safe(w, old(disk), bundled.info.sha) ==>
                AllExact(w, old(record), record, bundled.info.sha, old(disk.selection), Some(info))
    {
      var bundle := bundled.info.sha;
      ghost var start := disk.selection;
      var installed, names := Install(info, current, bundled);
      WhileInstalling(old(record), old(disk), names, info, current, bundled);
      ghost var r := record;
      var fails: bool := *;
      if installed.None? || fails {
        return current;
      }
      result := installed.value;
      ghost var d := disk;
      Switch(result, current, bundle);
      AllChosenTwice(w, old(record), r, record, bundle, current.root, Some(info));
      if Safe(w, old(disk), bundle) {
        SelectionIsNew(d, current, bundle, info, disk.selection);
        AllExactTwice(w, old(record), r, record, bundle, start, Some(info));
      }
    }

    /** Until the switch the running snapshot stays verified and the selection as it was. */
    lemma WhileInstalling(before: seq<Disk>, d: Disk, names: set<string>, info: Info, current: Current,
                          bundled: Snapshot)
      requires Extends(before, d, record, disk, names) && StagingOr(names, info.sha)
      requires Choice(w, d, bundled.info.sha, current.root) && info.sha != current.snapshot.info.sha
      requires current.root.Bundled? ==> current.snapshot == bundled
      requires current.root.Stored? ==>
                 IsHash(current.root.identity) && SavedSnapshot(w, d, current.root.identity) == Some(current.snapshot)
      ensures Genuine(current, bundled) && Keeps(disk, current)
      ensures AllChosen(w, before, record, bundled.info.sha, current.root, Some(info))
      ensures Safe(w, d, bundled.info.sha) ==>
                AllExact(w, before, record, bundled.info.sha, d.selection, Some(info))
    {
      StagingIsNoHash();
      GenuineStays(d, current, bundled, names);
      InstallingIsAllChosen(w, before, d, record, disk, names, bundled.info.sha, current.root, info);
      if Safe(w, d, bundled.info.sha) {
        SafeIsExact(w, before, d, record, disk, names, bundled.info.sha, Some(info));
      }
    }

    /** A safe selection for the bundle named the running snapshot, which the new one does not. */
    lemma SelectionIsNew(d: Disk, current: Current, bundle: string, info: Info, selection: SelectionFile)
      requires Selects(d, bundle) ==> current.root == Stored(d.selection.selection.active)
      requires current.root.Stored? ==> current.root.identity != info.sha && IsHash(current.snapshot.info.sha)
      requires IsHash(bundle) && IsHash(info.sha) && selection.Saved? && selection.selection.bundled == bundle
      requires selection.selection.active == info.sha
      requires selection.selection.previous == if current.root.Bundled? then None else Some(current.snapshot.info.sha)
      ensures selection != d.selection
    {
    }

    /**
     * The frontend to run, and what the deployment offered.  Wherever the run ends or is interrupted, the next start
     * chooses what this one chose, or the offered build.  A selection for this bundle that named a verified snapshot
     * still names one in every disk of the run, and the new selection does if and only if the offered metadata can
     * be read back.
     */
    method Prepare(bundle: Tree) returns (prepared: Option<Current>, ghost offer: Option<Info>)
      requires Lawful(w)
      modifies this
      ensures prepared.None? <==> Load(w, bundle).None?
      ensures prepared.Some? ==> Sound(prepared.value, Load(w, bundle).value)
      ensures prepared.Some? ==> Upholds(old(disk), Load(w, bundle).value.info.sha, prepared.value)
      ensures old(downloads) <= downloads && Distinct(downloads[|old(downloads)|..])
      ensures offer.Some? ==> Offered(w, offer.value)
      ensures Load(w, bundle).Some? ==>
                forall root :: Choice(w, old(disk), Load(w, bundle).value.info.sha, root) ==>
                  AllChosen(w, old(record), record, Load(w, bundle).value.info.sha, root, offer)
      ensures Load(w, bundle).Some? && Safe(w, old(disk), Load(w, bundle).value.info.sha) ==>
                AllExact(w, old(record), record, Load(w, bundle).value.info.sha, old(disk.selection), offer)
    {
      offer := None;
      var loaded := LoadSnapshot(bundle);
      if loaded.None? {
        return None, offer;
      }
      var bundled := loaded.value;
      var current := Restore(bundled);
      ghost var names := RemoveStaging();
      WhileCleaning(old(record), old(disk), names, current, bundled);
      ghost var r, d := record, disk;
      var result;
      result, offer := Update(current, bundled);
      IsUpheld(old(disk), bundled.info.sha, current, result);
      ChoiceIsUnique(w, old(disk), bundled.info.sha, current.root);
      AllChosenTwice(w, old(record), r, record, bundled.info.sha, current.root, offer);
      if Safe(w, old(disk), bundled.info.sha) {
        AllExactTwice(w, old(record), r, record, bundled.info.sha, old(disk.selection), offer);
      }
      return Some(result), offer;
    }

    /** Before the update only staging directories are touched. */
    lemma WhileCleaning(before: seq<Disk>, d: Disk, names: set<string>, current: Current, bundled: Snapshot)
      requires Extends(before, d, record, disk, names) && forall n :: n in names ==> JsText.StartsWith(n, STAGING)
      requires Choice(w, d, bundled.info.sha, current.root)
      requires current.root.Bundled? ==> current.snapshot == bundled
      requires current.root.Stored? ==>
                 IsHash(current.root.identity) && SavedSnapshot(w, d, current.root.identity) == Some(current.snapshot)
      ensures Genuine(current, bundled) && Choice(w, disk, bundled.info.sha, current.root)
      ensures forall offer :: AllChosen(w, before, record, bundled.info.sha, current.root, offer)
      ensures Safe(w, d, bundled.info.sha) ==>
                Safe(w, disk, bundled.info.sha)
                && forall offer :: AllExact(w, before, record, bundled.info.sha, d.selection, offer)
    {
      StagingIsNoHash();
      GenuineStays(d, current, bundled, names);
      ChoiceElsewhere(w, d, disk, names, bundled.info.sha, current.root);
      forall offer ensures AllChosen(w, before, record, bundled.info.sha, current.root, offer) {
        StagingIsAllChosen(w, before, d, record, disk, names, bundled.info.sha, current.root, offer);
      }
      if Safe(w, d, bundled.info.sha) {
        forall offer
          ensures Safe(w, disk, bundled.info.sha)
                  && AllExact(w, before, record, bundled.info.sha, d.selection, offer)
        {
          SafeIsExact(w, before, d, record, disk, names, bundled.info.sha, offer);
        }
      }
    }
  }

  predicate HasSuffix(text: string, suffix: string) {
    |suffix| <= |text| && text[|text| - |suffix|..] == suffix
  }

  /** A different build; for a released frontend also a different revision. */
  predicate Differs(current: Info, offered: Info) {
    offered.sha != current.sha && (HasSuffix(current.version, "-development") || offered.revision != current.revision)
  }

  /** No asset has the name of a metadata file. */
  lemma MetadataKeepsFiles(w: World, files: seq<Asset>, tree: Tree, manifest: Node, info: Node)
    requires Lawful(w) && Consistent(w, files) && tree.Keys == Paths(files) && forall a :: a in files ==>
               Verified(w, tree, a)
    ensures var more := tree[MANIFEST := manifest][BUILD_INFO := info];
            more.Keys == Paths(files) + {MANIFEST, BUILD_INFO} && forall a :: a in files ==> Verified(w, more, a)
  {
    forall a | a in files ensures a.path != MANIFEST && a.path != BUILD_INFO {
      assert AssetOk(w, a);
    }
  }
}
