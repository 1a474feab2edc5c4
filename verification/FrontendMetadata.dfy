/**
 * Build metadata that the frontend updater accepts and cannot read back: a version of slashes, which encoding
 * escapes.  What the platform computes is fixed to one small example.
 */
module FrontendMetadata {
  import opened Prelude
  import JsText
  import opened FrontendUpdater

  function Fill(c: char, n: nat): (r: string)
    ensures |r| == n && forall i :: 0 <= i < n ==> r[i] == c
  {
    seq(n, i => c)
  }

  function EscapedSlashes(n: nat): (r: string)
    ensures |r| == 2 * n
  {
    seq(2 * n, i => if i % 2 == 0 then '\\' else '/')
  }

  // Encoding puts a backslash in front of every slash; the version consists of slashes.
  const VERSION := Fill('/', 40_000)
  const ESCAPED := EscapedSlashes(40_000)
  const OLD := Fill('0', 64)
  const NEW := Fill('1', 64)
  const BUNDLE := Fill('2', 64)
  const EMPTY := Fill('3', 64)
  const OLD_REVISION := Fill('0', 40)
  const NEW_REVISION := Fill('1', 40)

  const PATHS: seq<string> :=
    ["index.html", "api/index.html", "api/webapp-client.json", "collaboration/index.html",
        "collaboration/webapp-client.json"]

  const FILES: seq<Asset> :=
    [Asset(PATHS[0], 0, EMPTY), Asset(PATHS[1], 0, EMPTY), Asset(PATHS[2], 0, EMPTY), Asset(PATHS[3], 0, EMPTY),
        Asset(PATHS[4], 0, EMPTY)]

  const OLD_INFO := Info(OLD_REVISION, "1", "then", MANIFEST, 1, OLD)
  const NEW_INFO := Info(NEW_REVISION, VERSION, "now", MANIFEST, 1, NEW)

  const OLD_MANIFEST := Manifest(OLD_REVISION, "1", FILES)
  const NEW_MANIFEST := Manifest(NEW_REVISION, VERSION, FILES)

  // The texts "o" and "n" are the two manifests, "i" and two long ones the old and the new metadata.

  function Digest(data: string): string {
    if data == "o" then OLD else if data == "n" then NEW else EMPTY
  }

  function ManifestOf(data: string): Option<Manifest> {
    if data == "o" then Some(OLD_MANIFEST)
    else if data == "n" then Some(NEW_MANIFEST)
    else None
  }

  function InfoOf(data: string): Option<Info> {
    if data == "i" then Some(OLD_INFO) else if data == VERSION || data == ESCAPED then Some(NEW_INFO) else None
  }

  function Encode(info: Info): string {
    if info == OLD_INFO then "i" else ESCAPED
  }

  function Canonical(path: string): string {
    path
  }

  predicate Control(c: char) {
    c < ' '
  }

  predicate Blank(text: string) {
    text == ""
  }

  function Utf8(text: string): nat {
    |text|
  }

  predicate Uuid(text: string) {
    |text| == 36
  }

  function Slashes(): World {
    World(Digest, ManifestOf, InfoOf, Encode, Canonical, Control, Blank, Utf8, Uuid)
  }

  function Directory(info: Info, data: string): Tree {
    map[BUILD_INFO := File(Slashes().encode(info)), MANIFEST := File(data), PATHS[0] := File(""), PATHS[1] := File(""),
        PATHS[2] := File(""), PATHS[3] := File(""), PATHS[4] := File("")]
  }

  lemma PlainSplit(s: string)
    requires '/' !in s
    ensures JsText.Split(s, '/') == [s]
  {
    if s != "" {
      PlainSplit(s[1..]);
      assert [s[0]] + s[1..] == s;
    }
  }

  lemma SlashSplit(a: string, b: string)
    requires '/' !in a
    ensures JsText.Split(a + "/" + b, '/') == [a] + JsText.Split(b, '/')
  {
    if a == "" {
      assert ("" + "/" + b)[1..] == b;
    } else {
      assert (a + "/" + b)[1..] == a[1..] + "/" + b;
      SlashSplit(a[1..], b);
      assert [a[0]] + a[1..] == a;
    }
  }

  predicate PlainChar(c: char) {
    'a' <= c <= 'z' || c == '.' || c == '-'
  }

  predicate Plain(name: string) {
    2 < |name| < 20 && forall c :: c in name ==> PlainChar(c)
  }

  lemma NestedPathIsOk(directory: string, name: string)
    requires Plain(directory) && Plain(name)
    ensures AssetOk(Slashes(), Asset(directory + "/" + name, 0, EMPTY))
  {
    var path := directory + "/" + name;
    SlashSplit(directory, name);
    PlainSplit(name);
    NotMetadata(path, |directory|);
    assert forall c :: c in path ==> PlainChar(c) || c == '/';
    PathIsOk(path, [directory, name]);
  }

  lemma TextIs(text: string, c: char)
    ensures Slashes().canonical(text) == text && Slashes().utf8(text) == |text| && (Slashes().control(c) <==> c < ' ')
  {
  }

  lemma AssetIsOk(w: World, a: Asset, components: seq<string>)
    requires JsText.Split(a.path, '/') == components && forall c :: c in components ==> c != "" && c != "." && c != ".."
    requires forall c :: c in a.path ==> c != '\\' && !w.control(c)
    requires w.utf8(a.path) <= 4096 && w.canonical(a.path) == a.path && a.path != BUILD_INFO && a.path != MANIFEST
    requires IsHash(a.sha) && a.bytes >= 0
    ensures AssetOk(w, a)
  {
  }

  lemma NoControls(path: string)
    requires forall c :: c in path ==> PlainChar(c) || c == '/'
    ensures forall c :: c in path ==> c != '\\' && !Slashes().control(c)
  {
    forall c | c in path ensures c != '\\' && !Slashes().control(c) {
      TextIs(path, c);
    }
  }

  lemma EmptyIsHash()
    ensures IsHash(EMPTY)
  {
  }

  lemma PathIsOk(path: string, components: seq<string>)
    requires JsText.Split(path, '/') == components && forall c :: c in components ==> 2 < |c|
    requires |path| <= 4096 && path != BUILD_INFO && path != MANIFEST
    requires forall c :: c in path ==> PlainChar(c) || c == '/'
    ensures AssetOk(Slashes(), Asset(path, 0, EMPTY))
  {
    ComponentsAreNames(components);
    NoControls(path);
    PlainPathIsOk(path, components);
  }

  lemma PlainPathIsOk(path: string, components: seq<string>)
    requires JsText.Split(path, '/') == components
    requires forall c :: c in components ==> c != "" && c != "." && c != ".."
    requires forall c :: c in path ==> c != '\\' && !Slashes().control(c)
    requires |path| <= 4096 && path != BUILD_INFO && path != MANIFEST
    ensures AssetOk(Slashes(), Asset(path, 0, EMPTY))
  {
    TextIs(path, 'a');
    EmptyIsHash();
    AssetIsOk(Slashes(), Asset(path, 0, EMPTY), components);
  }

  lemma ComponentsAreNames(components: seq<string>)
    requires forall c :: c in components ==> 2 < |c|
    ensures forall c :: c in components ==> c != "" && c != "." && c != ".."
  {
    assert |"."| == 1 && |".."| == 2;
  }

  lemma NotMetadata(path: string, i: nat)
    requires i < |path| && path[i] == '/'
    ensures path != BUILD_INFO && path != MANIFEST
  {
    assert '/' !in BUILD_INFO && '/' !in MANIFEST;
    assert path[i] in path;
  }

  lemma TopPathIsOk(name: string)
    requires Plain(name) && |name| == 10
    ensures AssetOk(Slashes(), Asset(name, 0, EMPTY))
  {
    PlainSplit(name);
    assert |BUILD_INFO| == 15 && |MANIFEST| == 20;
    PathIsOk(name, [name]);
  }

  lemma NamesArePlain()
    ensures Plain("api") && Plain("collaboration") && Plain("index.html") && Plain("webapp-client.json")
  {
  }

  lemma PathsAre()
    ensures PATHS[0] == "index.html" && PATHS[1] == "api" + "/" + "index.html"
            && PATHS[2] == "api" + "/" + "webapp-client.json"
    ensures PATHS[3] == "collaboration" + "/" + "index.html" && PATHS[4] == "collaboration" + "/" + "webapp-client.json"
    ensures |PATHS[0]| == 10 && |PATHS[1]| == 14 && |PATHS[2]| == 22 && |PATHS[3]| == 24 && |PATHS[4]| == 32
  {
  }

  lemma FilesAreOk(i: nat)
    requires i < 5
    ensures FILES[i] == Asset(PATHS[i], 0, EMPTY) && AssetOk(Slashes(), FILES[i])
  {
    PathsAre();
    NamesArePlain();
    TopPathIsOk(PATHS[0]);
    NestedPathIsOk("api", "index.html");
    NestedPathIsOk("api", "webapp-client.json");
    NestedPathIsOk("collaboration", "index.html");
    NestedPathIsOk("collaboration", "webapp-client.json");
  }

  lemma {:induction false} NothingToAdd(files: seq<Asset>)
    requires forall a :: a in files ==> a.bytes == 0
    ensures Total(files) == 0
  {
    if files != [] {
      NothingToAdd(files[..|files| - 1]);
    }
  }

  lemma FilesAreConsistent()
    ensures Consistent(Slashes(), FILES)
  {
    PathsAre();
    NothingToAdd(FILES);
    forall i | 0 <= i < |FILES| ensures AssetOk(Slashes(), FILES[i]) && |FILES[i].path| == |PATHS[i]| {
      FilesAreOk(i);
    }
    forall i, j | 0 <= i < j < |FILES| ensures |FILES[i].path| != |FILES[j].path| {
    }
  }

  lemma FilesAreRequired()
    ensures Paths(FILES) == REQUIRED
    ensures forall a :: a in FILES ==> a.path in PATHS && a.bytes == 0 && a.sha == EMPTY
  {
    assert FILES[0] in FILES && FILES[1] in FILES && FILES[2] in FILES && FILES[3] in FILES && FILES[4] in FILES;
  }

  predicate Sample(info: Info, data: string, m: Manifest) {
    || (info == OLD_INFO && data == "o" && m == OLD_MANIFEST)
    || (info == NEW_INFO && data == "n" && m == NEW_MANIFEST)
  }

  lemma SampleIsDecoded(info: Info, data: string, m: Manifest)
    requires Sample(info, data, m)
    ensures Valid(Slashes(), info) && Decoded(Slashes(), data, info) == Some(m)
  {
    FilesAreConsistent();
    FilesAreRequired();
    assert VERSION != "";
  }

  lemma DirectoryHolds(info: Info, data: string)
    ensures var tree := Directory(info, data);
            && tree.Keys == REQUIRED + {MANIFEST, BUILD_INFO} && tree[MANIFEST] == File(data)
            && tree[BUILD_INFO] == File(Slashes().encode(info)) && forall path :: path in PATHS ==>
                 tree[path] == File("")
  {
    PathsAre();
    assert |MANIFEST| == 20 && |BUILD_INFO| == 15;
  }

  lemma EmptyFileIsVerified(tree: Tree, a: Asset)
    requires a.path in tree && tree[a.path] == File("") && a.bytes == 0 && a.sha == EMPTY
    ensures Verified(Slashes(), tree, a)
  {
    assert Slashes().digest("") == EMPTY;
  }

  lemma DirectoryIsInstalled(info: Info, data: string, m: Manifest)
    requires Sample(info, data, m)
    ensures Installed(Slashes(), Directory(info, data), info, data, m)
  {
    SampleIsDecoded(info, data, m);
    FilesAreRequired();
    DirectoryHolds(info, data);
    forall a | a in m.files ensures Verified(Slashes(), Directory(info, data), a) {
      EmptyFileIsVerified(Directory(info, data), a);
    }
  }

  lemma SlashesAreLawful()
    ensures Lawful(Slashes()) && Offered(Slashes(), NEW_INFO) && !Readable(Slashes(), NEW_INFO)
    ensures Reencoded(Slashes(), OLD_INFO) && Reencoded(Slashes(), NEW_INFO) && Readable(Slashes(), OLD_INFO)
  {
    assert |VERSION| == 40_000 && |ESCAPED| == 80_000;
    assert NEW_INFO.builtAt != OLD_INFO.builtAt && VERSION != "i" && ESCAPED != "i";
    assert Reencoded(Slashes(), OLD_INFO) && Reencoded(Slashes(), NEW_INFO);
    SampleIsDecoded(NEW_INFO, "n", NEW_MANIFEST);
    assert Download(Slashes(), VERSION, NEW_INFO);
  }

  function Before(): Disk {
    Disk(Saved(Selection(BUNDLE, OLD, None)), map[OLD := Directory(OLD_INFO, "o")])
  }

  function After(): Disk {
    Disk(Saved(Replacement(Updated(), Running(), BUNDLE)), Before().children[NEW := Directory(NEW_INFO, "n")])
  }

  /** What runs before the update, and what the update installs. */
  function Running(): Current {
    Current(Stored(OLD), Snapshot(Directory(OLD_INFO, "o"), OLD_INFO, OLD_MANIFEST))
  }

  function Updated(): Current {
    Current(Stored(NEW), Snapshot(Directory(NEW_INFO, "n"), NEW_INFO, NEW_MANIFEST))
  }

  lemma SelectionsAreValid()
    ensures Selects(Before(), BUNDLE) && Selects(After(), BUNDLE)
    ensures Before().children[OLD] == Directory(OLD_INFO, "o") && NEW in After().children
            && After().children[NEW] == Directory(NEW_INFO, "n")
    ensures OLD in After().children && After().children[OLD] == Directory(OLD_INFO, "o")
    ensures After().selection == Saved(Selection(BUNDLE, NEW, Some(OLD)))
  {
    assert OLD[0] != NEW[0];
  }

  lemma InstallationsAreComplete()
    ensures Installed(Slashes(), Directory(OLD_INFO, "o"), OLD_INFO, "o", OLD_MANIFEST)
    ensures Installed(Slashes(), Directory(NEW_INFO, "n"), NEW_INFO, "n", NEW_MANIFEST)
  {
    DirectoryIsInstalled(OLD_INFO, "o", OLD_MANIFEST);
    DirectoryIsInstalled(NEW_INFO, "n", NEW_MANIFEST);
  }

  /** The old snapshot verifies before and after the update, the new one does not. */
  lemma OnlyOldIsRestored()
    ensures SavedSnapshot(Slashes(), Before(), OLD) == Some(Running().snapshot)
    ensures SavedSnapshot(Slashes(), After(), OLD).Some? && SavedSnapshot(Slashes(), After(), NEW).None?
  {
    SlashesAreLawful();
    SelectionsAreValid();
    InstallationsAreComplete();
    InstalledIsRestorable(Slashes(), Before(), OLD_INFO, "o", OLD_MANIFEST);
    InstalledIsRestorable(Slashes(), After(), OLD_INFO, "o", OLD_MANIFEST);
    InstalledIsRestorable(Slashes(), After(), NEW_INFO, "n", NEW_MANIFEST);
  }

  /** The offered build is one that the updater installs over the running one. */
  lemma OfferIsTaken()
    ensures Differs(OLD_INFO, NEW_INFO)
  {
    assert OLD[0] == '0' && NEW[0] == '1' && OLD_REVISION[0] == '0' && NEW_REVISION[0] == '1';
  }

  /**
   * A deployment that differs from the running build, is accepted, installed and selected, and then is not restored,
   * although the selection before was safe: the next start falls back to the old build.
   */
  lemma UnreadableMetadata()
    ensures Lawful(Slashes()) && Offered(Slashes(), NEW_INFO) && !Readable(Slashes(), NEW_INFO)
    ensures Selects(Before(), BUNDLE) && Safe(Slashes(), Before(), BUNDLE)
    ensures SavedSnapshot(Slashes(), Before(), OLD) == Some(Running().snapshot)
    ensures Choice(Slashes(), Before(), BUNDLE, Running().root) && Differs(Running().snapshot.info, NEW_INFO)
    ensures After().selection == Saved(Replacement(Updated(), Running(), BUNDLE))
    ensures Switched(Slashes(), After(), BUNDLE, NEW_INFO) && !Safe(Slashes(), After(), BUNDLE)
    ensures Choice(Slashes(), After(), BUNDLE, Running().root)
  {
    SlashesAreLawful();
    SelectionsAreValid();
    InstallationsAreComplete();
    OnlyOldIsRestored();
    OfferIsTaken();
  }
}
