/**
 * The file system as the harness sees it: a set of live directories, each
 * holding named files, plus the supply of unique names `tempfile.mkdtemp`
 * hands out.  Removal follows `os.path.isdir(d)` then
 * `shutil.rmtree(d, ignore_errors=True)`: delete if present, never fail.
 */
module Files {
  import opened Calls

  const FuzzPrefix := "mlforensics_fuzz_"
  const RepoPrefix := "mlforensics_repo_"
  const TestFileName := "test_file.py"

  /** The fault `mkdtemp` raises when it finds no unused name. */
  const NoUsableName := Fault("FileExistsError", "No usable temporary directory name found", "")

  /** `os.path.join(dir, name)`. */
  function JoinPath(dir: string, name: string): string
  {
    dir + "/" + name
  }

  /** The directory `mkdtemp(prefix=prefix)` creates under `root` for a unique token. */
  function TempPath(root: string, prefix: string, token: string): (p: string)
    ensures p != ""
  {
    JoinPath(root, prefix + token)
  }

  lemma ConcatCancel(x: string, y: string, a: string, b: string)
    requires |x| == |y| && x + a == y + b
    ensures a == b
  {
    assert a == (x + a)[|x|..];
    assert b == (y + b)[|y|..];
  }

  /** Under both prefixes the harness uses, distinct tokens give distinct paths. */
  lemma TempPathInjective(root: string, p: string, q: string, a: string, b: string)
    requires |p| == |q|
    requires TempPath(root, p, a) == TempPath(root, q, b)
    ensures a == b
  {
    assert TempPath(root, p, a) == (root + "/" + p) + a;
    assert TempPath(root, q, b) == (root + "/" + q) + b;
    ConcatCancel(root + "/" + p, root + "/" + q, a, b);
  }

  /** `os.path.isdir(d)`; the empty path is never a directory. */
  predicate IsDir(dirs: Dirs, d: string)
  {
    d != "" && d in dirs
  }

  /** `if os.path.isdir(d): shutil.rmtree(d, ignore_errors=True)`. */
  function WithoutTree(dirs: Dirs, d: string): (r: Dirs)
    ensures d != "" ==> d !in r
    ensures d == "" ==> r == dirs
    ensures forall x :: x != d ==> (x in r <==> x in dirs) && (x in r ==> r[x] == dirs[x])
  {
    if IsDir(dirs, d) then dirs - {d} else dirs
  }

  /** `WithoutTree` applied to each of `ds` in turn, first to last. */
  function RemoveTrees(dirs: Dirs, ds: seq<string>): Dirs
    decreases |ds|
  {
    if ds == [] then dirs else WithoutTree(RemoveTrees(dirs, ds[..|ds| - 1]), ds[|ds| - 1])
  }

  /** The directories among `ds` that removal can affect. */
  function Removable(ds: seq<string>): set<string>
  {
    set d | d in ds && d != ""
  }

  /**
   * Removing `ds` one by one deletes exactly the non-empty names among them
   * and leaves every other directory, with its files, as it was.
   */
  lemma {:induction false} RemoveTreesExact(dirs: Dirs, ds: seq<string>)
    ensures RemoveTrees(dirs, ds) == dirs - Removable(ds)
    decreases |ds|
  {
    if ds != [] {
      var init, last := ds[..|ds| - 1], ds[|ds| - 1];
      RemoveTreesExact(dirs, init);
      assert ds == init + [last];
      var removed := if last != "" then Removable(init) + {last} else Removable(init);
      assert Removable(ds) == removed;
      var before := dirs - Removable(init);
      assert RemoveTrees(dirs, ds) == WithoutTree(before, last);
      assert WithoutTree(before, last) == dirs - removed;
    }
  }

  /** No directory named in `ds` is live after they have been removed. */
  lemma RemoveTreesLeavesNone(dirs: Dirs, ds: seq<string>, d: string)
    requires d in ds && d != ""
    ensures d !in RemoveTrees(dirs, ds)
  {
    RemoveTreesExact(dirs, ds);
  }

  /** Removing the same directories twice is the same as removing them once. */
  lemma RemoveTreesIdempotent(dirs: Dirs, ds: seq<string>)
    ensures RemoveTrees(RemoveTrees(dirs, ds), ds) == RemoveTrees(dirs, ds)
  {
    RemoveTreesExact(dirs, ds);
    RemoveTreesExact(RemoveTrees(dirs, ds), ds);
  }

  /**
   * `now` is `base` plus new, non-empty directories `created`; what was in
   * `base` is untouched.
   */
  predicate Extends(base: Dirs, now: Dirs, created: seq<string>)
  {
    && now.Keys == base.Keys + (set d | d in created)
    && (forall d :: d in created ==> d != "" && d !in base)
    && (forall d :: d in base ==> now[d] == base[d])
  }

  /** Removing exactly the directories a step created gives back the file system before it. */
  lemma CleanupRestores(base: Dirs, now: Dirs, created: seq<string>)
    requires Extends(base, now, created)
    ensures RemoveTrees(now, created) == base
  {
    RemoveTreesExact(now, created);
    assert Removable(created) == set d | d in created;
  }

  /**
   * mkdtemp's unique-name guarantee, as an assumption on the token supply:
   * the tokens are pairwise distinct and no path built from one of them
   * with either prefix is already a directory.
   */
  ghost predicate FreshTokens(root: string, dirs: Dirs, tokens: seq<string>)
  {
    && (forall i, j :: 0 <= i < j < |tokens| ==> tokens[i] != tokens[j])
    && (forall i, p :: 0 <= i < |tokens| && p in {FuzzPrefix, RepoPrefix} ==> TempPath(root, p, tokens[i]) !in dirs)
  }

  class FileSystem {
    /** `tempfile.gettempdir()`. */
    const root: string
    /** The live directories and their files. */
    var dirs: Dirs
    /** The names `mkdtemp` will produce, in order; once they run out it raises. */
    var tokens: seq<string>

    ghost predicate Valid()
      reads this
    {
      FreshTokens(root, dirs, tokens)
    }

    constructor (root: string, dirs: Dirs, tokens: seq<string>)
      requires FreshTokens(root, dirs, tokens)
      ensures Valid()
      ensures this.root == root && this.dirs == dirs && this.tokens == tokens
    {
      this.root := root;
      this.dirs := dirs;
      this.tokens := tokens;
    }

    /** `tempfile.mkdtemp(prefix=prefix)`: a new, empty directory with an unused name. */
    method MkDTemp(prefix: string) returns (r: Result<string>)
      requires Valid() && prefix in {FuzzPrefix, RepoPrefix}
      modifies this
      ensures Valid()
      ensures old(tokens) == [] ==> r == Failure(NoUsableName) && dirs == old(dirs) && tokens == old(tokens)
      ensures old(tokens) != [] ==>
        && r == Success(TempPath(root, prefix, old(tokens)[0]))
        && r.value !in old(dirs)
        && dirs == old(dirs)[r.value := map[]]
        && tokens == old(tokens)[1..]
    {
      if tokens == [] {
        return Failure(NoUsableName);
      }
      var d := TempPath(root, prefix, tokens[0]);
      forall i, p | 0 <= i < |tokens| - 1 && p in {FuzzPrefix, RepoPrefix}
        ensures TempPath(root, p, tokens[1..][i]) != d
      {
        if TempPath(root, p, tokens[i + 1]) == d {
          TempPathInjective(root, p, prefix, tokens[i + 1], tokens[0]);
        }
      }
      dirs := dirs[d := map[]];
      tokens := tokens[1..];
      r := Success(d);
    }

    /** `open(os.path.join(dir, name), "w").write(content)` in a live directory. */
    method WriteFile(dir: string, name: string, content: string)
      requires Valid() && dir in dirs
      modifies this
      ensures Valid()
      ensures dirs == old(dirs)[dir := old(dirs)[dir][name := content]] && tokens == old(tokens)
    {
      dirs := dirs[dir := dirs[dir][name := content]];
    }

    /** `shutil.rmtree(d, ignore_errors=True)`: nothing happens when `d` is absent. */
    method RmTree(d: string)
      requires Valid()
      modifies this
      ensures Valid()
      ensures dirs == old(dirs) - {d} && tokens == old(tokens)
    {
      dirs := dirs - {d};
    }
  }
}
