/** Copying of the generated protocol files that a list of roots reaches through relative imports. */
module ImportClosure {
  import opened Prelude
  import JsText

  /** An absolute path as its names. */
  type Path = seq<string>

  // ---------- what a file imports ----------

  const FROM := "from \""

  /** The matches of `from "(\.[^"]+)"`, left to right. */
  function Imports(content: string): seq<string>
    decreases |content|
  {
    if content == "" then []
    else if JsText.StartsWith(content, FROM) then
      var rest := content[|FROM|..];
      var name := JsText.Before(rest, '\"');
      BeforeIsPrefix(rest, '\"');
      if |name| >= 2 && name[0] == '.' && |name| < |rest| then [name] + Imports(rest[|name| + 1..])
      else Imports(content[1..])
    else Imports(content[1..])
  }

  lemma BeforeIsPrefix(s: string, c: char)
    ensures |JsText.Before(s, c)| <= |s|
  {
  }

  /** The text starts with a match that imports `name`. */
  ghost predicate Imported(text: string, name: string) {
    |name| >= 2 && name[0] == '.' && '\"' !in name && JsText.StartsWith(text, FROM + name + "\"")
  }

  ghost predicate ImportedAt(content: string, i: int, name: string)
    requires 0 <= i <= |content|
  {
    Imported(content[i..], name)
  }

  lemma {:induction false} BeforeIsUnquoted(s: string, c: char)
    ensures var name := JsText.Before(s, c);
            |name| <= |s| && s[..|name|] == name && c !in name && (|name| < |s| ==> s[|name|] == c)
  {
    if s != "" && s[0] != c {
      BeforeIsUnquoted(s[1..], c);
    }
  }

  lemma {:induction false} BeforeQuote(name: string, rest: string)
    requires '\"' !in name && JsText.StartsWith(rest, name + "\"")
    ensures JsText.Before(rest, '\"') == name
    decreases |name|
  {
    assert (name + "\"")[0] == rest[0];
    if name != "" {
      assert name[1..] + "\"" == (name + "\"")[1..];
      BeforeQuote(name[1..], rest[1..]);
      assert [name[0]] + name[1..] == name;
    }
  }

  /** The name between the quotes is the only one a text can start with. */
  lemma ImportedIsBefore(text: string, name: string)
    requires Imported(text, name)
    ensures var rest := text[|FROM|..];
            JsText.StartsWith(text, FROM) && name == JsText.Before(rest, '\"') && |name| < |rest|
  {
    assert (FROM + name + "\"")[|FROM|..] == name + "\"";
    BeforeQuote(name, text[|FROM|..]);
  }

  /** Every import is a match in the content. */
  lemma {:induction false} ImportsAreMatches(content: string, name: string)
    requires name in Imports(content)
    ensures exists i :: 0 <= i <= |content| && ImportedAt(content, i, name)
    decreases |content|
  {
    if JsText.StartsWith(content, FROM) {
      var rest := content[|FROM|..];
      var found := JsText.Before(rest, '\"');
      BeforeIsUnquoted(rest, '\"');
      if |found| >= 2 && found[0] == '.' && |found| < |rest| {
        if name == found {
          assert content == FROM + rest && rest == found + "\"" + rest[|found| + 1..];
          assert content[0..] == content && ImportedAt(content, 0, name);
        } else {
          ShiftedMatch(content, |FROM| + |found| + 1, name);
        }
      } else {
        ShiftedMatch(content, 1, name);
      }
    } else {
      ShiftedMatch(content, 1, name);
    }
  }

  lemma ShiftedMatch(content: string, n: nat, name: string)
    requires 0 < n <= |content| && name in Imports(content[n..])
    ensures exists i :: 0 <= i <= |content| && ImportedAt(content, i, name)
    decreases |content|, 0
  {
    ImportsAreMatches(content[n..], name);
    var i :| 0 <= i <= |content[n..]| && ImportedAt(content[n..], i, name);
    assert content[n..][i..] == content[n + i..];
    assert ImportedAt(content, n + i, name);
  }

  /** No match that starts before `i` reaches beyond it. */
  ghost predicate Unobstructed(content: string, i: int)
    requires 0 <= i <= |content|
  {
    forall j, other :: 0 <= j < i && ImportedAt(content, j, other) ==> j + |FROM| + |other| + 1 <= i
  }

  lemma UnobstructedShift(content: string, n: nat, i: nat)
    requires n <= i <= |content| && Unobstructed(content, i)
    ensures Unobstructed(content[n..], i - n)
  {
    forall j, other | 0 <= j < i - n && ImportedAt(content[n..], j, other) ensures j + |FROM| + |other| + 1 <= i - n {
      assert content[n..][j..] == content[n + j..];
      assert ImportedAt(content, n + j, other);
    }
  }

  lemma FoundIsImported(content: string, name: string)
    requires JsText.StartsWith(content, FROM) && name == JsText.Before(content[|FROM|..], '\"')
    requires |name| >= 2 && name[0] == '.' && |name| < |content| - |FROM|
    ensures ImportedAt(content, 0, name)
  {
    var rest := content[|FROM|..];
    BeforeIsUnquoted(rest, '\"');
    assert content == FROM + rest && rest == name + "\"" + rest[|name| + 1..];
    assert content[0..] == content;
  }

  /** Every match that no earlier one overlaps is found. */
  lemma {:induction false} NoImportIsMissed(content: string, i: nat, name: string)
    requires i <= |content| && ImportedAt(content, i, name) && Unobstructed(content, i)
    ensures name in Imports(content)
    decreases |content|
  {
    if i == 0 {
      assert content[0..] == content;
      ImportedIsBefore(content, name);
    } else {
      var found := if JsText.StartsWith(content, FROM) then JsText.Before(content[|FROM|..], '\"') else "";
      var n := 1;
      if |found| >= 2 && found[0] == '.' && |found| < |content| - |FROM| {
        FoundIsImported(content, found);
        n := |FROM| + |found| + 1;
        assert content[|FROM|..][|found| + 1..] == content[n..];
      }
      assert content[n..][i - n..] == content[i..];
      assert ImportedAt(content[n..], i - n, name);
      UnobstructedShift(content, n, i);
      NoImportIsMissed(content[n..], i - n, name);
    }
  }

  function Stem(name: string): string {
    if |name| >= 3 && name[|name| - 3..] == ".js" then name[..|name| - 3] else name
  }

  /** Walks from a directory along the names of a relative path. */
  function Walk(directory: Path, names: seq<string>): Path
    decreases |names|
  {
    if names == [] then directory
    else if names[0] == "" || names[0] == "." then Walk(directory, names[1..])
    else if names[0] == ".." then Walk(if directory == [] then [] else directory[..|directory| - 1], names[1..])
    else Walk(directory + [names[0]], names[1..])
  }

  /** Names that only go down stay below the directory. */
  lemma {:induction false} WalkStaysBelow(directory: Path, names: seq<string>)
    requires ".." !in names
    ensures directory <= Walk(directory, names)
    decreases |names|
  {
    if names != [] {
      WalkStaysBelow(directory, names[1..]);
      WalkStaysBelow(directory + [names[0]], names[1..]);
    }
  }

  function Resolve(directory: Path, relative: string): Path {
    Walk(directory, JsText.Split(relative, '/'))
  }

  /** The path relative to the output directory gets the suffix, and is then resolved again. */
  function FileOf(output: Path, imported: Path): Path {
    if imported == output then output + [".ts"]
    else if imported <= output then output[..|imported| + 1] + ["...ts"]
    else imported[..|imported| - 1] + [imported[|imported| - 1] + ".ts"]
  }

  function Directory(file: Path): Path {
    if file == [] then [] else file[..|file| - 1]
  }

  function Targets(output: Path, file: Path, names: seq<string>): seq<Path> {
    if names == [] then []
    else [FileOf(output, Resolve(Directory(file), Stem(names[0])))] + Targets(output, file, names[1..])
  }

  /** The generated files under the output directory. */
  datatype Tree = Tree(output: Path, files: map<Path, string>) {
    predicate Inside(file: Path) {
      |output| < |file| && output <= file
    }

    predicate Present(file: Path) {
      Inside(file) && file in files
    }

    function Next(file: Path): seq<Path>
      requires Present(file)
    {
      Targets(output, file, Imports(files[file]))
    }
  }

  // ---------- reachability ----------

  /** Every file but the last is present and imports the one after it. */
  ghost predicate Chain(tree: Tree, chain: seq<Path>) {
    forall i :: 0 < i < |chain| ==> Link(tree, chain, i)
  }

  ghost predicate Link(tree: Tree, chain: seq<Path>, i: int)
    requires 0 < i < |chain|
  {
    tree.Present(chain[i - 1]) && chain[i] in tree.Next(chain[i - 1])
  }

  ghost predicate Leads(tree: Tree, chain: seq<Path>, from: Path, to: Path) {
    chain != [] && chain[0] == from && chain[|chain| - 1] == to && Chain(tree, chain)
  }

  ghost predicate Reaches(tree: Tree, from: Path, to: Path) {
    exists chain :: Leads(tree, chain, from, to)
  }

  lemma ReachesItself(tree: Tree, file: Path)
    ensures Reaches(tree, file, file)
  {
    assert Leads(tree, [file], file, file);
  }

  lemma ReachesThrough(tree: Tree, from: Path, mid: Path, to: Path)
    requires tree.Present(from) && mid in tree.Next(from) && Reaches(tree, mid, to)
    ensures Reaches(tree, from, to)
  {
    var chain :| Leads(tree, chain, mid, to);
    var longer := [from] + chain;
    forall i | 0 < i < |longer| ensures Link(tree, longer, i) {
      if i > 1 {
        assert Link(tree, chain, i - 1);
      }
    }
    assert Leads(tree, longer, from, to);
  }

  ghost predicate Closed(tree: Tree, files: set<Path>) {
    forall f, g :: f in files && tree.Present(f) && g in tree.Next(f) ==> g in files
  }

  lemma {:induction false} ClosedHoldsChain(tree: Tree, files: set<Path>, chain: seq<Path>, from: Path, to: Path)
    requires Closed(tree, files) && from in files && Leads(tree, chain, from, to)
    ensures to in files
    decreases |chain|
  {
    if |chain| > 1 {
      var before := chain[..|chain| - 1];
      assert forall i :: 0 < i < |before| ==> Link(tree, chain, i) ==> Link(tree, before, i);
      assert Leads(tree, before, from, before[|before| - 1]);
      ClosedHoldsChain(tree, files, before, from, before[|before| - 1]);
      assert Link(tree, chain, |chain| - 1);
    }
  }

  /** A closed set that holds a file holds everything the file reaches. */
  lemma ClosedHoldsReachable(tree: Tree, files: set<Path>, from: Path)
    requires Closed(tree, files) && from in files
    ensures forall to :: Reaches(tree, from, to) ==> to in files
  {
    forall to | Reaches(tree, from, to) ensures to in files {
      var chain :| Leads(tree, chain, from, to);
      ClosedHoldsChain(tree, files, chain, from, to);
    }
  }

  // ---------- copying ----------

  ghost predicate Distinct(s: seq<Path>) {
    forall i, j :: 0 <= i < j < |s| ==> s[i] != s[j]
  }

  /** Every file that `before` did not hold is present and imports only what `seen` holds. */
  ghost predicate Covered(tree: Tree, before: set<Path>, seen: set<Path>) {
    forall f :: f in seen && f !in before ==> tree.Present(f) && forall g :: g in tree.Next(f) ==> g in seen
  }

  /** The files seen since are the files written since, each once. */
  ghost predicate Recorded(before: set<Path>, seen: set<Path>, written: seq<Path>) {
    && before <= seen && Distinct(written)
    && (forall f :: f in written <==> f in seen && f !in before)
  }

  lemma RecordedConcat(a: set<Path>, b: set<Path>, c: set<Path>, first: seq<Path>, second: seq<Path>)
    requires Recorded(a, b, first) && Recorded(b, c, second)
    ensures Recorded(a, c, first + second)
  {
    forall i, j | 0 <= i < j < |first + second| ensures (first + second)[i] != (first + second)[j] {
      assert i < |first| ==> first[i] in first;
      assert j >= |first| ==> second[j - |first|] in second;
    }
  }

  ghost predicate ReachedFrom(tree: Tree, starts: seq<Path>, file: Path) {
    exists start :: start in starts && Reaches(tree, start, file)
  }

  /** What a successful copy adds: present files reached from the starts, and with each everything it imports. */
  ghost predicate Copied(tree: Tree, starts: seq<Path>, before: set<Path>, seen: set<Path>, added: seq<Path>) {
    && Recorded(before, seen, added) && Covered(tree, before, seen)
    && (forall f :: f in starts ==> f in seen)
    && (forall f :: f in added ==> ReachedFrom(tree, starts, f))
  }

  lemma CopiedNext(tree: Tree, starts: seq<Path>, n: nat, a: set<Path>, b: set<Path>, c: set<Path>, first: seq<Path>,
                   second: seq<Path>)
    requires n < |starts| && Copied(tree, starts[..n], a, b, first) && Copied(tree, [starts[n]], b, c, second)
    ensures Copied(tree, starts[..n + 1], a, c, first + second)
  {
    RecordedConcat(a, b, c, first, second);
    assert starts[..n + 1] == starts[..n] + [starts[n]];
    forall f | f in first + second ensures ReachedFrom(tree, starts[..n + 1], f) {
      if f in first {
        var start :| start in starts[..n] && Reaches(tree, start, f);
        assert start in starts[..n + 1];
      } else {
        var start :| start in [starts[n]] && Reaches(tree, start, f);
        assert start in starts[..n + 1];
      }
    }
  }

  lemma CopiedFile(tree: Tree, file: Path, before: set<Path>, seen: set<Path>, added: seq<Path>)
    requires file !in before && tree.Present(file) && Copied(tree, tree.Next(file), before + {file}, seen, added)
    ensures Copied(tree, [file], before, seen, added + [file])
  {
    ReachesItself(tree, file);
    forall f | f in added + [file] ensures ReachedFrom(tree, [file], f) {
      if f in added {
        NextReached(tree, file, f);
      }
      assert file in [file] && Reaches(tree, file, f);
    }
  }

  lemma NextReached(tree: Tree, file: Path, to: Path)
    requires tree.Present(file) && ReachedFrom(tree, tree.Next(file), to)
    ensures Reaches(tree, file, to)
  {
    var start :| start in tree.Next(file) && Reaches(tree, start, to);
    ReachesThrough(tree, file, start, to);
  }

  lemma CopiedNothing(tree: Tree, file: Path, seen: set<Path>)
    requires file in seen
    ensures Copied(tree, [file], seen, seen, [])
  {
  }

  /** From nothing, the files copied are exactly the files reached. */
  lemma CopiedIsReachable(tree: Tree, starts: seq<Path>, seen: set<Path>, added: seq<Path>)
    requires Copied(tree, starts, {}, seen, added)
    ensures forall f :: f in added <==> ReachedFrom(tree, starts, f)
    ensures forall f :: ReachedFrom(tree, starts, f) ==> tree.Present(f)
    ensures Closed(tree, seen)
  {
    forall f | ReachedFrom(tree, starts, f) ensures f in added && tree.Present(f) {
      var start :| start in starts && Reaches(tree, start, f);
      ClosedHoldsReachable(tree, seen, start);
    }
  }

  class Copier {
    const tree: Tree
    const destination: Path
    const before: map<Path, string>
    var seen: set<Path>
    var written: seq<Path>
    var store: map<Path, string>

    constructor (tree: Tree, destination: Path, store: map<Path, string>)
      ensures this.tree == tree && this.destination == destination && this.before == store
      ensures Valid() && seen == {} && written == []
    {
      this.tree, this.destination, this.before, this.store := tree, destination, store, store;
      seen, written := {}, [];
    }

    function Target(file: Path): Path
      requires tree.Inside(file)
    {
      destination + file[|tree.output|..]
    }

    ghost predicate WrittenTo(p: Path)
      reads this
    {
      exists f :: f in written && tree.Inside(f) && Target(f) == p
    }

    /** Every written file is at its target with its content, and nothing else has changed. */
    ghost predicate Valid()
      reads this
    {
      && (forall f :: f in written ==> tree.Present(f) && Target(f) in store && store[Target(f)] == tree.files[f])
      && (forall p :: p in store ==> WrittenTo(p) || (p in before && store[p] == before[p]))
      && before.Keys <= store.Keys
    }

    lemma TargetIsInjective(f: Path, g: Path)
      requires tree.Inside(f) && tree.Inside(g) && Target(f) == Target(g)
      ensures f == g
    {
      assert f == tree.output + f[|tree.output|..] && g == tree.output + g[|tree.output|..];
      assert Target(f)[|destination|..] == f[|tree.output|..] && Target(g)[|destination|..] == g[|tree.output|..];
    }

    method Write(file: Path)
      requires Valid() && tree.Present(file)
      modifies this`store, this`written
      ensures Valid() && written == old(written) + [file]
    {
      forall f | f in written && Target(f) == Target(file) ensures f == file {
        TargetIsInjective(f, file);
      }
      ghost var s := store;
      store := store[Target(file) := tree.files[file]];
      written := written + [file];
      forall p | p in store ensures WrittenTo(p) || (p in before && store[p] == before[p]) {
        if p == Target(file) {
          assert file in written;
        } else {
          assert p in s;
          if f :| f in old(written) && tree.Inside(f) && Target(f) == p {
            assert f in written;
          }
        }
      }
    }

    /**
     * Copies a file and what it imports, unless it was seen before.  Fails exactly when the file, or one it
     * newly reaches, is outside the output directory or missing.
     */
    method Copy(file: Path) returns (ok: bool, ghost added: seq<Path>, ghost culprit: Path)
      requires Valid()
      modifies this
      ensures Valid() && old(seen) <= seen
      ensures ok ==> written == old(written) + added && Copied(tree, [file], old(seen), seen, added)
      ensures !ok ==> Reaches(tree, file, culprit) && !tree.Present(culprit)
      decreases tree.files.Keys - seen, 0
    {
      added, culprit := [], file;
      ReachesItself(tree, file);
      if file in seen {
        CopiedNothing(tree, file, seen);
        return true, added, culprit;
      }
      if !tree.Inside(file) {
        return false, added, culprit;
      }
      seen := seen + {file};
      if file !in tree.files {
        return false, added, culprit;
      }
      assert file in old(tree.files.Keys - seen) && file !in tree.files.Keys - seen;
      ok, added, culprit := CopyAll(tree.Next(file));
      if !ok {
        NextReached(tree, file, culprit);
        return;
      }
      CopiedFile(tree, file, old(seen), seen, added);
      Write(file);
      added := added + [file];
    }

    lemma Extend(files: seq<Path>, i: nat, a: set<Path>, b: set<Path>, first: seq<Path>, second: seq<Path>,
                 base: seq<Path>)
      requires i < |files| && Copied(tree, files[..i], a, b, first) && Copied(tree, [files[i]], b, seen, second)
      requires written == (base + first) + second
      ensures Copied(tree, files[..i + 1], a, seen, first + second) && written == base + (first + second)
    {
      CopiedNext(tree, files, i, a, b, seen, first, second);
    }

    method CopyAll(files: seq<Path>) returns (ok: bool, ghost added: seq<Path>, ghost culprit: Path)
      requires Valid()
      modifies this
      ensures Valid() && old(seen) <= seen
      ensures ok ==> written == old(written) + added && Copied(tree, files, old(seen), seen, added)
      ensures !ok ==> ReachedFrom(tree, files, culprit) && !tree.Present(culprit)
      decreases tree.files.Keys - seen, 1
    {
      added, culprit := [], [];
      var i := 0;
      while i < |files|
        invariant 0 <= i <= |files| && Valid() && old(seen) <= seen
        invariant written == old(written) + added && Copied(tree, files[..i], old(seen), seen, added)
      {
        ghost var more, middle := [], seen;
        ok, more, culprit := Copy(files[i]);
        if !ok {
          return;
        }
        Extend(files, i, old(seen), middle, added, more, old(written));
        added := added + more;
        i := i + 1;
      }
      assert files[..i] == files;
      ok := true;
    }

    /**
     * On success exactly the files reached from the roots are written, each once; otherwise a file that is
     * reached is outside the output directory or missing.
     */
    method Run(roots: seq<string>) returns (ok: bool)
      requires Valid() && seen == {} && written == []
      modifies this
      ensures Valid()
      ensures ok ==> Distinct(written) && forall f :: f in written <==>
                ReachedFrom(tree, RootFiles(tree.output, roots), f)
      ensures ok <==> forall f :: ReachedFrom(tree, RootFiles(tree.output, roots), f) ==> tree.Present(f)
    {
      ghost var added, culprit;
      ok, added, culprit := CopyAll(RootFiles(tree.output, roots));
      if ok {
        CopiedIsReachable(tree, RootFiles(tree.output, roots), seen, added);
      }
    }
  }

  function RootFiles(output: Path, roots: seq<string>): seq<Path> {
    if roots == [] then [] else [Resolve(output, roots[0] + ".ts")] + RootFiles(output, roots[1..])
  }
}
