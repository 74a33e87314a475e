/**
 * The argument generators of `main_fuzz`: `make_temp_py_file` and the five
 * `args_*` closures.  Each draws from the random stream in the order the
 * source does, may create temporary directories, and hands back the
 * positional arguments together with the metadata naming what it created.
 * A generator raises only when `mkdtemp` finds no fresh name.
 */
module Generators {
  import opened Calls
  import opened Text
  import opened Random
  import opened Files

  /** The tiny Python programs `make_temp_py_file` writes when given no content. */
  const Snippets: seq<string> := [
    "x = 1\n",
    "def foo(a, b):\n    return a + b\n",
    "import logging\nlogging.info('hi')\n",
    "try:\n    1/0\nexcept Exception as e:\n    pass\n"
  ]

  /** The script path inside a temporary directory. */
  function TestFilePath(dir: string): string
  {
    JoinPath(dir, TestFileName)
  }

  /** The file names `args_getAllPythonFilesinRepo` writes: `f"file_{i}.py"`. */
  function FileName(i: nat): string
  {
    "file_" + Decimal(i) + ".py"
  }

  lemma FileNameInjective(i: nat, j: nat)
    requires FileName(i) == FileName(j)
    ensures i == j
  {
    var a, b := FileName(i), FileName(j);
    assert Decimal(i) == a[5..|a| - 3];
    assert Decimal(j) == b[5..|b| - 3];
    DecimalInjective(i, j);
  }

  /** The repository directory after `k` passes of the file-writing loop. */
  function RepoFiles(k: nat): map<string, string>
  {
    if k == 0 then map[] else RepoFiles(k - 1)[FileName(k - 1) := Assignment]
  }

  /**
   * The repository holds exactly `file_0.py` ... `file_{k-1}.py`, that is
   * `k` distinct files, each containing `x = 1`.
   */
  lemma {:induction false} RepoFilesExact(k: nat)
    ensures forall i: nat :: FileName(i) in RepoFiles(k) <==> i < k
    ensures forall name :: name in RepoFiles(k) ==> RepoFiles(k)[name] == Assignment
    ensures forall name :: name in RepoFiles(k) ==> exists i: nat :: i < k && name == FileName(i)
    ensures |RepoFiles(k)| == k
  {
    if k > 0 {
      RepoFilesExact(k - 1);
      forall i: nat | FileName(i) == FileName(k - 1)
        ensures i == k - 1
      {
        FileNameInjective(i, k - 1);
      }
      assert FileName(k - 1) !in RepoFiles(k - 1);
    }
  }

  /** A name the fake branch of the file generators produces: a random string and `.py`. */
  predicate IsFakePy(path: string)
  {
    |path| >= 3 && path[|path| - 3..] == ".py" && |path| - 3 <= 40 && IsName(path[..|path| - 3])
  }

  lemma FakePy(name: string)
    requires |name| <= 40 && IsName(name)
    ensures IsFakePy(name + ".py")
  {
    var p := name + ".py";
    assert p[|p| - 3..] == ".py" && p[..|p| - 3] == name;
  }

  /**
   * `scripts` and `tmpDirs` as `args_getCSVData` builds them: at each step
   * either a temporary directory is recorded and its `test_file.py` path
   * appended to the scripts, or a fake path is appended alone.
   */
  predicate Paired(scripts: seq<string>, tmpDirs: seq<string>)
    decreases |scripts|
  {
    if scripts == [] then tmpDirs == []
    else
      var init, last := scripts[..|scripts| - 1], scripts[|scripts| - 1];
      || (tmpDirs != [] && last == TestFilePath(tmpDirs[|tmpDirs| - 1]) && Paired(init, tmpDirs[..|tmpDirs| - 1]))
      || (IsFakePy(last) && Paired(init, tmpDirs))
  }

  /** No more directories than scripts, and each directory's script is among them. */
  lemma {:induction false} PairedBounds(scripts: seq<string>, tmpDirs: seq<string>)
    requires Paired(scripts, tmpDirs)
    ensures |tmpDirs| <= |scripts|
    ensures forall j :: 0 <= j < |tmpDirs| ==> TestFilePath(tmpDirs[j]) in scripts
    decreases |scripts|
  {
    if scripts != [] {
      var init := scripts[..|scripts| - 1];
      if tmpDirs != [] && scripts[|scripts| - 1] == TestFilePath(tmpDirs[|tmpDirs| - 1]) && Paired(init, tmpDirs[..|tmpDirs| - 1]) {
        PairedBounds(init, tmpDirs[..|tmpDirs| - 1]);
        forall j | 0 <= j < |tmpDirs|
          ensures TestFilePath(tmpDirs[j]) in scripts
        {
          if j < |tmpDirs| - 1 {
            assert TestFilePath(tmpDirs[..|tmpDirs| - 1][j]) in init;
          }
        }
      } else {
        PairedBounds(init, tmpDirs);
      }
    }
  }

  /** A freshly made directory holding one `test_file.py` with a listed snippet. */
  predicate HoldsSnippet(dirs: Dirs, d: string)
  {
    d in dirs && TestFileName in dirs[d] && dirs[d] == map[TestFileName := dirs[d][TestFileName]]
    && dirs[d][TestFileName] in Snippets
  }

  /** What the generated arguments of each target look like. */
  predicate Shaped(t: Target, call: Call)
  {
    match t
    case CheckLoggingPerData =>
      && |call.args| == 2 && call.args[0].TreeArg? && call.args[1].Str?
      && (call.args[1].s in TrackedNames || (|call.args[1].s| <= 10 && IsName(call.args[1].s)))
    case GetAllPythonFilesinRepo =>
      || (call.aux.TmpDir? && call.args == [Str(call.aux.dir)])
      || (call.aux.NoAux? && |call.args| == 1 && call.args[0].Str? && |call.args[0].s| <= 40 && IsName(call.args[0].s))
    case GetCSVData =>
      && call.aux.TmpDirs? && |call.args| == 2 && call.args[0].StrList? && call.args[1].Str?
      && |call.args[0].items| <= 4 && Paired(call.args[0].items, call.aux.dirs)
      && |call.args[1].s| <= 15 && IsName(call.args[1].s)
    case _ =>
      || (call.aux.TmpDir? && call.args == [Str(TestFilePath(call.aux.dir))])
      || (call.aux.NoAux? && |call.args| == 1 && call.args[0].Str? && IsFakePy(call.args[0].s))
  }

  /** What each directory a generator created holds when the target runs. */
  predicate Populated(t: Target, dirs: Dirs, d: string)
  {
    if t == GetAllPythonFilesinRepo then d in dirs && exists k :: 0 <= k <= 5 && dirs[d] == RepoFiles(k)
    else HoldsSnippet(dirs, d)
  }

  /**
   * What a generator for `t` promises, from the file system `base` and
   * name supply `supply` it started with: a call that binds to the target,
   * has the target's shape, and created exactly the directories its
   * metadata names, fresh and populated, using up that many names; or a
   * failure that happens only once the supply has run dry, leaving what
   * was there before in place.
   */
  ghost predicate Generated(t: Target, base: Dirs, supply: seq<string>, dirs: Dirs, tokens: seq<string>, r: Result<Call>)
  {
    match r
    case Success(call) =>
      var made := AuxDirs(call.aux);
      && Fits(t, call) && Shaped(t, call)
      && Extends(base, dirs, made)
      && (forall d :: d in made ==> Populated(t, dirs, d))
      && |made| <= MaxDirs(t)
      && |made| <= |supply| && supply == supply[..|made|] + tokens
    case Failure(e) =>
      && e == NoUsableName && tokens == [] && |supply| < MaxDirs(t)
      && (forall d :: d in base ==> d in dirs && dirs[d] == base[d])
  }

  lemma OneDir(base: Dirs, d: string, m: map<string, string>)
    requires d != "" && d !in base
    ensures Extends(base, base[d := m], [d])
  {
    assert (set x | x in [d]) == {d};
  }

  /** A real script in one new directory is a call `Generated` for a temp-file target. */
  lemma TempPyReal(t: Target, base: Dirs, supply: seq<string>, dirs: Dirs, tokens: seq<string>, d: string)
    requires t == GetPythonParseObject || t == GetDataLoadCount
    requires d != "" && d !in base && HoldsSnippet(dirs, d) && dirs == base[d := dirs[d]]
    requires supply != [] && supply[1..] == tokens
    ensures Generated(t, base, supply, dirs, tokens, Success(Call([Str(TestFilePath(d))], TmpDir(d))))
  {
    OneDir(base, d, dirs[d]);
    assert supply == supply[..1] + tokens;
  }

  /** A fake path and no metadata is a call `Generated` for a temp-file target. */
  lemma TempPyFake(t: Target, base: Dirs, supply: seq<string>, name: string)
    requires t == GetPythonParseObject || t == GetDataLoadCount
    requires |name| <= 40 && IsName(name)
    ensures Generated(t, base, supply, base, supply, Success(Call([Str(name + ".py")], NoAux)))
  {
    FakePy(name);
    assert (set x | x in AuxDirs(NoAux)) == {};
  }

  /**
   * `make_temp_py_file(content)`: when no content is given a snippet is
   * chosen first; then a directory is made and `test_file.py` written in
   * it.  Returns `(tmp_dir, path)`.
   */
  method MakeTempPyFile(content: Option<string>, rng: Rng, fs: FileSystem) returns (r: Result<(string, string)>)
    requires fs.Valid()
    modifies rng, fs
    ensures fs.Valid()
    ensures rng.pos == old(rng.pos) + if content.None? then 1 else 0
    ensures old(fs.tokens) == [] ==> r == Failure(NoUsableName) && fs.dirs == old(fs.dirs) && fs.tokens == old(fs.tokens)
    ensures old(fs.tokens) != [] ==>
      var d := TempPath(fs.root, FuzzPrefix, old(fs.tokens)[0]);
      var body := if content.Some? then content.value else ChoiceAt(rng.draw, old(rng.pos), Snippets);
      && r == Success((d, TestFilePath(d)))
      && d !in old(fs.dirs)
      && fs.dirs == old(fs.dirs)[d := map[TestFileName := body]]
      && fs.tokens == old(fs.tokens)[1..]
  {
    var body: string;
    if content.None? {
      body := rng.Choice(Snippets);
    } else {
      body := content.value;
    }
    var made := fs.MkDTemp(FuzzPrefix);
    if made.Failure? {
      return Failure(made.error);
    }
    var d := made.value;
    var path := TestFilePath(d);
    fs.WriteFile(d, TestFileName, body);
    r := Success((d, path));
  }

  /** What one call of a generator leaves behind: its result, the next draw, the file system and the unused names. */
  datatype Gen = Gen(r: Result<Call>, pos: nat, dirs: Dirs, tokens: seq<string>)

  /**
   * `args_getPythonParseObject` / `args_getDataLoadCount` as a function of
   * the draws from `pos`: the chance draw, then the snippet and a new
   * directory, or a random name of at most 40 characters.
   */
  ghost function TempPyGen(draw: nat -> nat, root: string, pos: nat, dirs: Dirs, tokens: seq<string>): Gen
  {
    if ChanceAt(draw, pos, 50) then
      if tokens == [] then Gen(Failure(NoUsableName), pos + 2, dirs, tokens)
      else
        var d := TempPath(root, FuzzPrefix, tokens[0]);
        Gen(Success(Call([Str(TestFilePath(d))], TmpDir(d))), pos + 2,
            dirs[d := map[TestFileName := ChoiceAt(draw, pos + 1, Snippets)]], tokens[1..])
    else
      var name := RandomString(draw, pos + 1, 40);
      Gen(Success(Call([Str(name.value + ".py")], NoAux)), name.next, dirs, tokens)
  }

  /**
   * `args_getPythonParseObject` and `args_getDataLoadCount`: with even
   * odds a real script in a new directory, recorded in `_tmp_dir`, or a
   * random path ending in `.py` and no metadata.
   */
  method TempPyFileArgs(t: Target, rng: Rng, fs: FileSystem) returns (r: Result<Call>)
    requires t == GetPythonParseObject || t == GetDataLoadCount
    requires fs.Valid()
    modifies rng, fs
    ensures fs.Valid()
    ensures Generated(t, old(fs.dirs), old(fs.tokens), fs.dirs, fs.tokens, r)
    ensures TempPyGen(rng.draw, fs.root, old(rng.pos), old(fs.dirs), old(fs.tokens)) == Gen(r, rng.pos, fs.dirs, fs.tokens)
    ensures ChanceAt(rng.draw, old(rng.pos), 50) ==>
      && rng.pos == old(rng.pos) + 2
      && (old(fs.tokens) == [] ==> r == Failure(NoUsableName) && fs.dirs == old(fs.dirs) && fs.tokens == old(fs.tokens))
      && (old(fs.tokens) != [] ==>
        var d := TempPath(fs.root, FuzzPrefix, old(fs.tokens)[0]);
        && r == Success(Call([Str(TestFilePath(d))], TmpDir(d)))
        && d !in old(fs.dirs)
        && fs.dirs == old(fs.dirs)[d := map[TestFileName := ChoiceAt(rng.draw, old(rng.pos) + 1, Snippets)]]
        && fs.tokens == old(fs.tokens)[1..])
    ensures !ChanceAt(rng.draw, old(rng.pos), 50) ==>
      var name := RandomString(rng.draw, old(rng.pos) + 1, 40);
      && r == Success(Call([Str(name.value + ".py")], NoAux))
      && rng.pos == name.next
      && fs.dirs == old(fs.dirs) && fs.tokens == old(fs.tokens)
  {
    var isReal := rng.Chance(50);
    if isReal {
      var made := MakeTempPyFile(None, rng, fs);
      if made.Failure? {
        return Failure(made.error);
      }
      var (dir, path) := made.value;
      TempPyReal(t, old(fs.dirs), old(fs.tokens), fs.dirs, fs.tokens, dir);
      r := Success(Call([Str(path)], TmpDir(dir)));
    } else {
      var name := rng.String(40);
      TempPyFake(t, old(fs.dirs), old(fs.tokens), name);
      r := Success(Call([Str(name + ".py")], NoAux));
    }
  }

  /**
   * `args_getAllPythonFilesinRepo` as a function of the draws: the chance
   * draw, then a new directory and the file count, or a random name.
   */
  ghost function RepoGen(draw: nat -> nat, root: string, pos: nat, dirs: Dirs, tokens: seq<string>): Gen
  {
    if ChanceAt(draw, pos, 50) then
      if tokens == [] then Gen(Failure(NoUsableName), pos + 1, dirs, tokens)
      else
        var d := TempPath(root, RepoPrefix, tokens[0]);
        Gen(Success(Call([Str(d)], TmpDir(d))), pos + 2, dirs[d := RepoFiles(RandIntAt(draw, pos + 1, 0, 5))], tokens[1..])
    else
      var name := RandomString(draw, pos + 1, 40);
      Gen(Success(Call([Str(name.value)], NoAux)), name.next, dirs, tokens)
  }

  /** A new directory holding `k` repository files is a call `Generated` for the repository target. */
  lemma RepoReal(base: Dirs, supply: seq<string>, dirs: Dirs, tokens: seq<string>, d: string, k: int)
    requires 0 <= k <= 5 && d != "" && d !in base && dirs == base[d := RepoFiles(k)]
    requires supply != [] && supply[1..] == tokens
    ensures Generated(GetAllPythonFilesinRepo, base, supply, dirs, tokens, Success(Call([Str(d)], TmpDir(d))))
  {
    OneDir(base, d, RepoFiles(k));
    assert supply == supply[..1] + tokens;
  }

  /** A random name and no metadata is a call `Generated` for the repository target. */
  lemma RepoFake(base: Dirs, supply: seq<string>, name: string)
    requires |name| <= 40 && IsName(name)
    ensures Generated(GetAllPythonFilesinRepo, base, supply, base, supply, Success(Call([Str(name)], NoAux)))
  {
    assert (set x | x in AuxDirs(NoAux)) == {};
  }

  /**
   * `args_getAllPythonFilesinRepo`: with even odds a new directory holding
   * `file_0.py` ... `file_{k-1}.py` for a drawn `k` in `0..5`, recorded in
   * `_tmp_dir` and passed as the path, or a random string and no metadata.
   */
  method RepoDirArgs(rng: Rng, fs: FileSystem) returns (r: Result<Call>)
    requires fs.Valid()
    modifies rng, fs
    ensures fs.Valid()
    ensures Generated(GetAllPythonFilesinRepo, old(fs.dirs), old(fs.tokens), fs.dirs, fs.tokens, r)
    ensures RepoGen(rng.draw, fs.root, old(rng.pos), old(fs.dirs), old(fs.tokens)) == Gen(r, rng.pos, fs.dirs, fs.tokens)
    ensures ChanceAt(rng.draw, old(rng.pos), 50) && old(fs.tokens) == [] ==>
      r == Failure(NoUsableName) && rng.pos == old(rng.pos) + 1
      && fs.dirs == old(fs.dirs) && fs.tokens == old(fs.tokens)
    ensures ChanceAt(rng.draw, old(rng.pos), 50) && old(fs.tokens) != [] ==>
      var d := TempPath(fs.root, RepoPrefix, old(fs.tokens)[0]);
      var k := RandIntAt(rng.draw, old(rng.pos) + 1, 0, 5);
      && r == Success(Call([Str(d)], TmpDir(d)))
      && rng.pos == old(rng.pos) + 2
      && d !in old(fs.dirs)
      && fs.dirs == old(fs.dirs)[d := RepoFiles(k)]
      && fs.tokens == old(fs.tokens)[1..]
    ensures !ChanceAt(rng.draw, old(rng.pos), 50) ==>
      var name := RandomString(rng.draw, old(rng.pos) + 1, 40);
      && r == Success(Call([Str(name.value)], NoAux))
      && rng.pos == name.next
      && fs.dirs == old(fs.dirs) && fs.tokens == old(fs.tokens)
  {
    var isReal := rng.Chance(50);
    if isReal {
      var made := fs.MkDTemp(RepoPrefix);
      if made.Failure? {
        return Failure(made.error);
      }
      var dir := made.value;
      var k := rng.RandInt(0, 5);
      WriteRepoFiles(fs, dir, k);
      RepoReal(old(fs.dirs), old(fs.tokens), fs.dirs, fs.tokens, dir, k);
      r := Success(Call([Str(dir)], TmpDir(dir)));
    } else {
      var name := rng.String(40);
      RepoFake(old(fs.dirs), old(fs.tokens), name);
      r := Success(Call([Str(name)], NoAux));
    }
  }

  /** The loop of `args_getAllPythonFilesinRepo` that writes `file_0.py` ... `file_{k-1}.py` into the new, empty directory `dir`. */
  method WriteRepoFiles(fs: FileSystem, dir: string, k: nat)
    requires fs.Valid() && dir in fs.dirs && fs.dirs[dir] == map[]
    modifies fs
    ensures fs.Valid() && fs.dirs == old(fs.dirs)[dir := RepoFiles(k)] && fs.tokens == old(fs.tokens)
  {
    assert fs.dirs == fs.dirs[dir := RepoFiles(0)];
    for i := 0 to k
      invariant fs.Valid()
      invariant fs.dirs == old(fs.dirs)[dir := RepoFiles(i)]
      invariant fs.tokens == old(fs.tokens)
    {
      fs.WriteFile(dir, FileName(i), Assignment);
    }
  }

  /** One directory more keeps `now` an extension of `base`. */
  lemma ExtendsStep(base: Dirs, now: Dirs, created: seq<string>, d: string, m: map<string, string>)
    requires Extends(base, now, created)
    requires d != "" && d !in now
    ensures Extends(base, now[d := m], created + [d])
  {
    assert (set x | x in created + [d]) == (set x | x in created) + {d};
  }

  /**
   * What `args_getCSVData` has built after some passes of its loop, from
   * the file system `base` and token supply `supply` it started with.
   */
  ghost predicate CsvSoFar(base: Dirs, supply: seq<string>, dirs: Dirs, tokens: seq<string>, scripts: seq<string>, tmpDirs: seq<string>)
  {
    && Paired(scripts, tmpDirs)
    && Extends(base, dirs, tmpDirs)
    && (forall d :: d in tmpDirs ==> HoldsSnippet(dirs, d))
    && |tmpDirs| <= |supply| && supply == supply[..|tmpDirs|] + tokens
  }

  /** A real script keeps the loop's record consistent. */
  lemma CsvSoFarReal(base: Dirs, supply: seq<string>, dirs: Dirs, tokens: seq<string>, scripts: seq<string>, tmpDirs: seq<string>, d: string, body: string)
    requires CsvSoFar(base, supply, dirs, tokens, scripts, tmpDirs)
    requires tokens != [] && d != "" && d !in dirs && body in Snippets
    ensures CsvSoFar(base, supply, dirs[d := map[TestFileName := body]], tokens[1..], scripts + [TestFilePath(d)], tmpDirs + [d])
  {
    var dirs' := dirs[d := map[TestFileName := body]];
    ExtendsStep(base, dirs, tmpDirs, d, dirs'[d]);
    assert supply[..|tmpDirs| + 1] == supply[..|tmpDirs|] + [tokens[0]];
    assert (scripts + [TestFilePath(d)])[..|scripts|] == scripts;
    forall x | x in tmpDirs + [d]
      ensures HoldsSnippet(dirs', x)
    {
      if x != d {
        assert x in tmpDirs && HoldsSnippet(dirs, x);
      }
    }
  }

  /** A fake path keeps the loop's record consistent. */
  lemma CsvSoFarFake(base: Dirs, supply: seq<string>, dirs: Dirs, tokens: seq<string>, scripts: seq<string>, tmpDirs: seq<string>, name: string)
    requires CsvSoFar(base, supply, dirs, tokens, scripts, tmpDirs)
    requires |name| <= 40 && IsName(name)
    ensures CsvSoFar(base, supply, dirs, tokens, scripts + [name + ".py"], tmpDirs)
  {
    FakePy(name);
    assert (scripts + [name + ".py"])[..|scripts|] == scripts;
  }

  /**
   * Where the loop of `args_getCSVData` stands after some passes: the lists
   * built so far, the next draw, the directories, the unused names, and
   * whether a pass ran out of names.
   */
  datatype CsvState = CsvState(scripts: seq<string>, tmpDirs: seq<string>, pos: nat, dirs: Dirs, tokens: seq<string>, failed: bool)

  /**
   * One pass of that loop, for temporary directories under `root`: a
   * winning draw makes a real script, whose snippet is the next draw, or
   * fails when no name is left; a losing one appends `random_string() + ".py"`.
   * After a failure nothing more happens.
   */
  function CsvPass(draw: nat -> nat, root: string, s: CsvState): (t: CsvState)
    ensures !t.failed ==> !s.failed && |t.scripts| == |s.scripts| + 1 && t.scripts[..|s.scripts|] == s.scripts
    ensures t.failed && !s.failed ==> s.tokens == [] && t.dirs == s.dirs
  {
    if s.failed then s
    else if ChanceAt(draw, s.pos, 50) then
      if s.tokens == [] then s.(pos := s.pos + 2, failed := true)
      else
        var d := TempPath(root, FuzzPrefix, s.tokens[0]);
        CsvState(s.scripts + [TestFilePath(d)], s.tmpDirs + [d], s.pos + 2,
                 s.dirs[d := map[TestFileName := ChoiceAt(draw, s.pos + 1, Snippets)]], s.tokens[1..], false)
    else
      var name := RandomString(draw, s.pos + 1, 40);
      s.(scripts := s.scripts + [name.value + ".py"], pos := name.next)
  }

  /** `n` passes of the loop of `args_getCSVData`, from `s`: the first pass, then `n - 1` more. */
  function CsvPasses(draw: nat -> nat, root: string, s: CsvState, n: nat): (t: CsvState)
    ensures s.failed ==> t == s
    ensures !t.failed ==> |t.scripts| == |s.scripts| + n
    decreases n
  {
    if n == 0 then s else CsvPasses(draw, root, CsvPass(draw, root, s), n - 1)
  }

  /** The `n + 1`-th pass is one pass after the first `n`. */
  lemma {:induction false} CsvPassesSnoc(draw: nat -> nat, root: string, s: CsvState, n: nat)
    ensures CsvPasses(draw, root, s, n + 1) == CsvPass(draw, root, CsvPasses(draw, root, s, n))
    decreases n
  {
    if n > 0 {
      CsvPassesSnoc(draw, root, CsvPass(draw, root, s), n - 1);
    }
  }

  /** Once a pass has run out of names, later passes change nothing. */
  lemma {:induction false} CsvPassesStop(draw: nat -> nat, root: string, s: CsvState, k: nat, n: nat)
    requires k <= n && CsvPasses(draw, root, s, k).failed
    ensures CsvPasses(draw, root, s, n) == CsvPasses(draw, root, s, k)
    decreases n
  {
    if k < n {
      CsvPassesStop(draw, root, s, k, n - 1);
      CsvPassesSnoc(draw, root, s, n - 1);
    }
  }

  /** Each pass uses at most one name, so `n` passes with `n` names left never run out. */
  lemma {:induction false} CsvPassesEnough(draw: nat -> nat, root: string, s: CsvState, n: nat)
    requires !s.failed && n <= |s.tokens|
    ensures !CsvPasses(draw, root, s, n).failed && |s.tokens| - n <= |CsvPasses(draw, root, s, n).tokens|
    decreases n
  {
    if n > 0 {
      CsvPassesEnough(draw, root, CsvPass(draw, root, s), n - 1);
    }
  }

  /**
   * One pass of the loop of `args_getCSVData`: with even odds a real script
   * whose directory joins `tmp_dirs`, otherwise a fake path.
   */
  method CsvStep(rng: Rng, fs: FileSystem, ghost base: Dirs, ghost supply: seq<string>, scripts: seq<string>, tmpDirs: seq<string>)
    returns (r: Result<(seq<string>, seq<string>)>)
    requires fs.Valid() && CsvSoFar(base, supply, fs.dirs, fs.tokens, scripts, tmpDirs)
    modifies rng, fs
    ensures fs.Valid()
    ensures r.Success? ==>
      && |r.value.0| == |scripts| + 1 && r.value.0[..|scripts|] == scripts
      && |tmpDirs| <= |r.value.1| <= |tmpDirs| + 1 && r.value.1[..|tmpDirs|] == tmpDirs
      && CsvSoFar(base, supply, fs.dirs, fs.tokens, r.value.0, r.value.1)
    ensures ChanceAt(rng.draw, old(rng.pos), 50) ==>
      && rng.pos == old(rng.pos) + 2
      && (old(fs.tokens) == [] ==> r == Failure(NoUsableName) && fs.dirs == old(fs.dirs) && fs.tokens == [])
      && (old(fs.tokens) != [] ==>
            var d := TempPath(fs.root, FuzzPrefix, old(fs.tokens)[0]);
            && r == Success((scripts + [TestFilePath(d)], tmpDirs + [d]))
            && fs.dirs == old(fs.dirs)[d := map[TestFileName := ChoiceAt(rng.draw, old(rng.pos) + 1, Snippets)]]
            && fs.tokens == old(fs.tokens)[1..])
    ensures !ChanceAt(rng.draw, old(rng.pos), 50) ==>
      var name := RandomString(rng.draw, old(rng.pos) + 1, 40);
      && r == Success((scripts + [name.value + ".py"], tmpDirs))
      && rng.pos == name.next && fs.dirs == old(fs.dirs) && fs.tokens == old(fs.tokens)
    ensures r.Failure? ==> r.error == NoUsableName && old(fs.tokens) == [] && fs.tokens == [] && fs.dirs == old(fs.dirs)
  {
    var isReal := rng.Chance(50);
    if isReal {
      var made := MakeTempPyFile(None, rng, fs);
      if made.Failure? {
        return Failure(made.error);
      }
      var (dir, path) := made.value;
      CsvSoFarReal(base, supply, old(fs.dirs), old(fs.tokens), scripts, tmpDirs, dir, fs.dirs[dir][TestFileName]);
      r := Success((scripts + [path], tmpDirs + [dir]));
      assert r.value.0[..|scripts|] == scripts && r.value.1[..|tmpDirs|] == tmpDirs;
    } else {
      var name := rng.String(40);
      CsvSoFarFake(base, supply, fs.dirs, fs.tokens, scripts, tmpDirs, name);
      r := Success((scripts + [name + ".py"], tmpDirs));
      assert r.value.0[..|scripts|] == scripts && r.value.1[..|tmpDirs|] == tmpDirs;
    }
  }

  /** The loop of `args_getCSVData`, finished, gives a call `Generated` for `getCSVData`. */
  lemma CsvGenerated(base: Dirs, supply: seq<string>, dirs: Dirs, tokens: seq<string>, scripts: seq<string>, tmpDirs: seq<string>, repo: string)
    requires CsvSoFar(base, supply, dirs, tokens, scripts, tmpDirs) && |scripts| <= 4 && |repo| <= 15 && IsName(repo)
    ensures Generated(GetCSVData, base, supply, dirs, tokens, Success(Call([StrList(scripts), Str(repo)], TmpDirs(tmpDirs))))
  {
    PairedBounds(scripts, tmpDirs);
  }

  /**
   * The loop of `args_getCSVData`, out of names, used each name it started
   * with for a directory of its own, and kept every directory it found.
   */
  lemma CsvFailed(base: Dirs, supply: seq<string>, dirs: Dirs, scripts: seq<string>, tmpDirs: seq<string>)
    requires CsvSoFar(base, supply, dirs, [], scripts, tmpDirs)
    ensures |supply| <= |scripts|
    ensures forall d :: d in base ==> d in dirs && dirs[d] == base[d]
  {
    PairedBounds(scripts, tmpDirs);
  }

  /**
   * `CsvStep` as one step of `CsvPass`: the loop's state after the pass is
   * `CsvPass` of its state before it.
   */
  method CsvPassStep(rng: Rng, fs: FileSystem, ghost base: Dirs, ghost supply: seq<string>, scripts: seq<string>, tmpDirs: seq<string>)
    returns (r: Result<(seq<string>, seq<string>)>)
    requires fs.Valid() && CsvSoFar(base, supply, fs.dirs, fs.tokens, scripts, tmpDirs)
    modifies rng, fs
    ensures fs.Valid()
    ensures r.Success? ==> |r.value.0| == |scripts| + 1 && CsvSoFar(base, supply, fs.dirs, fs.tokens, r.value.0, r.value.1)
    ensures r.Failure? ==> r.error == NoUsableName && old(fs.tokens) == [] && fs.tokens == [] && fs.dirs == old(fs.dirs)
    ensures
      var t := CsvPass(rng.draw, fs.root, CsvState(scripts, tmpDirs, old(rng.pos), old(fs.dirs), old(fs.tokens), false));
      && t.pos == rng.pos && t.dirs == fs.dirs && t.tokens == fs.tokens && t.failed == r.Failure?
      && (r.Success? ==> t.scripts == r.value.0 && t.tmpDirs == r.value.1)
  {
    r := CsvStep(rng, fs, base, supply, scripts, tmpDirs);
  }

  /**
   * One pass of the loop of `args_getCSVData` after the first `i` of its
   * `n` passes of `CsvPasses` from `start`: the state after it is that of
   * `i + 1` passes.  A pass that runs out of names fails, every name the
   * loop started with having gone to a directory of its own and every
   * directory it found being kept, and the remaining passes change nothing.
   */
  method CsvLoopStep(rng: Rng, fs: FileSystem, ghost base: Dirs, ghost supply: seq<string>, ghost start: CsvState, ghost i: nat,
                     ghost n: nat, scripts: seq<string>, tmpDirs: seq<string>)
    returns (r: Result<(seq<string>, seq<string>)>)
    requires i < n && fs.Valid() && CsvSoFar(base, supply, fs.dirs, fs.tokens, scripts, tmpDirs)
    requires CsvPasses(rng.draw, fs.root, start, i) == CsvState(scripts, tmpDirs, rng.pos, fs.dirs, fs.tokens, false)
    modifies rng, fs
    ensures fs.Valid()
    ensures r.Success? ==>
      && |r.value.0| == |scripts| + 1
      && CsvSoFar(base, supply, fs.dirs, fs.tokens, r.value.0, r.value.1)
      && CsvPasses(rng.draw, fs.root, start, i + 1) == CsvState(r.value.0, r.value.1, rng.pos, fs.dirs, fs.tokens, false)
    ensures r.Failure? ==>
      && r.error == NoUsableName && fs.tokens == [] && |supply| <= |scripts|
      && (forall d :: d in base ==> d in fs.dirs && fs.dirs[d] == base[d])
      && CsvPasses(rng.draw, fs.root, start, i + 1) == CsvState(scripts, tmpDirs, rng.pos, fs.dirs, fs.tokens, true)
      && CsvPasses(rng.draw, fs.root, start, n) == CsvState(scripts, tmpDirs, rng.pos, fs.dirs, fs.tokens, true)
  {
    ghost var before := CsvState(scripts, tmpDirs, rng.pos, fs.dirs, fs.tokens, false);
    r := CsvPassStep(rng, fs, base, supply, scripts, tmpDirs);
    CsvPassesSnoc(rng.draw, fs.root, start, i);
    if r.Failure? {
      CsvFailed(base, supply, fs.dirs, scripts, tmpDirs);
      CsvPassesStop(rng.draw, fs.root, start, i + 1, n);
    }
  }

  /**
   * The loop of `args_getCSVData`: `n` passes of `CsvStep`, the first one
   * that runs out of names ending it.  Everything it leaves is that of
   * `CsvPasses`.
   */
  method CsvLoop(rng: Rng, fs: FileSystem, n: nat) returns (ranOut: bool, scripts: seq<string>, tmpDirs: seq<string>)
    requires fs.Valid()
    modifies rng, fs
    ensures fs.Valid()
    ensures CsvPasses(rng.draw, fs.root, CsvState([], [], old(rng.pos), old(fs.dirs), old(fs.tokens), false), n)
            == CsvState(scripts, tmpDirs, rng.pos, fs.dirs, fs.tokens, ranOut)
    ensures !ranOut ==> |scripts| == n && CsvSoFar(old(fs.dirs), old(fs.tokens), fs.dirs, fs.tokens, scripts, tmpDirs)
    ensures ranOut ==>
      && fs.tokens == [] && |old(fs.tokens)| < n
      && (forall d :: d in old(fs.dirs) ==> d in fs.dirs && fs.dirs[d] == old(fs.dirs)[d])
  {
    ghost var start := CsvState([], [], rng.pos, fs.dirs, fs.tokens, false);
    scripts, tmpDirs := [], [];
    for i := 0 to n
      invariant fs.Valid()
      invariant |scripts| == i
      invariant CsvSoFar(old(fs.dirs), old(fs.tokens), fs.dirs, fs.tokens, scripts, tmpDirs)
      invariant CsvPasses(rng.draw, fs.root, start, i) == CsvState(scripts, tmpDirs, rng.pos, fs.dirs, fs.tokens, false)
    {
      var step := CsvLoopStep(rng, fs, old(fs.dirs), old(fs.tokens), start, i, n, scripts, tmpDirs);
      if step.Failure? {
        return true, scripts, tmpDirs;
      }
      scripts, tmpDirs := step.value.0, step.value.1;
    }
    ranOut := false;
  }

  /**
   * `args_getCSVData` as a function of the draws: the count, the passes of
   * its loop, then the repository name.
   */
  ghost function CsvGen(draw: nat -> nat, root: string, pos: nat, dirs: Dirs, tokens: seq<string>): Gen
  {
    var s := CsvPasses(draw, root, CsvState([], [], pos + 1, dirs, tokens, false), RandIntAt(draw, pos, 0, 4));
    if s.failed then Gen(Failure(NoUsableName), s.pos, s.dirs, s.tokens)
    else
      var repo := RandomString(draw, s.pos, 15);
      Gen(Success(Call([StrList(s.scripts), Str(repo.value)], TmpDirs(s.tmpDirs))), repo.next, s.dirs, s.tokens)
  }

  /**
   * `args_getCSVData`: `n` scripts for a drawn `n` in `0..4`, each a real
   * script in a new directory (recorded in `_tmp_dirs`) or a fake path, and
   * a random repository name of at most 15 characters.  The metadata always
   * carries `_tmp_dirs`, even when it is empty.  The scripts, the
   * directories, the names used and the draws consumed are those of
   * `CsvPasses` from the draw after the count; `dir_repo` is the
   * `random_string(15)` drawn after the last pass.  When `mkdtemp` fails
   * part way, the directories made so far stay behind.
   */
  method CsvArgs(rng: Rng, fs: FileSystem) returns (r: Result<Call>)
    requires fs.Valid()
    modifies rng, fs
    ensures fs.Valid()
    ensures Generated(GetCSVData, old(fs.dirs), old(fs.tokens), fs.dirs, fs.tokens, r)
    ensures CsvGen(rng.draw, fs.root, old(rng.pos), old(fs.dirs), old(fs.tokens)) == Gen(r, rng.pos, fs.dirs, fs.tokens)
    ensures r.Success? ==>
      && r.value.aux.TmpDirs? && |r.value.args| == 2
      && r.value.args[0].StrList? && |r.value.args[0].items| == RandIntAt(rng.draw, old(rng.pos), 0, 4)
      && r.value.args[1].Str? && |r.value.args[1].s| <= 15 && IsName(r.value.args[1].s)
      && CsvSoFar(old(fs.dirs), old(fs.tokens), fs.dirs, fs.tokens, r.value.args[0].items, r.value.aux.dirs)
    ensures r.Failure? ==>
      && r.error == NoUsableName && fs.tokens == []
      && |old(fs.tokens)| < RandIntAt(rng.draw, old(rng.pos), 0, 4)
      && (forall d :: d in old(fs.dirs) ==> d in fs.dirs && fs.dirs[d] == old(fs.dirs)[d])
    ensures
      var s := CsvPasses(rng.draw, fs.root, CsvState([], [], old(rng.pos) + 1, old(fs.dirs), old(fs.tokens), false),
                         RandIntAt(rng.draw, old(rng.pos), 0, 4));
      && fs.dirs == s.dirs && fs.tokens == s.tokens
      && (r.Failure? <==> s.failed)
      && (r.Failure? ==> rng.pos == s.pos)
      && (r.Success? ==>
            && r.value == Call([StrList(s.scripts), Str(RandomString(rng.draw, s.pos, 15).value)], TmpDirs(s.tmpDirs))
            && rng.pos == RandomString(rng.draw, s.pos, 15).next)
  {
    var n := rng.RandInt(0, 4);
    var ranOut, scripts, tmpDirs := CsvLoop(rng, fs, n);
    if ranOut {
      r := Failure(NoUsableName);
    } else {
      var repo := rng.String(15);
      CsvGenerated(old(fs.dirs), old(fs.tokens), fs.dirs, fs.tokens, scripts, tmpDirs, repo);
      r := Success(Call([StrList(scripts), Str(repo)], TmpDirs(tmpDirs)));
    }
  }

  /**
   * The generator `main_fuzz` pairs with `t`, as a function of the draws
   * from `pos`, the directories under `root` and the unused names.
   */
  ghost function Generate(t: Target, parse: string -> Option<Tree>, draw: nat -> nat, root: string,
                          pos: nat, dirs: Dirs, tokens: seq<string>): Gen
    requires parse("").Some?
  {
    match t
    case CheckLoggingPerData =>
      var c := CheckLoggingArgs(draw, pos, parse);
      Gen(Success(c.value), c.next, dirs, tokens)
    case GetCSVData => CsvGen(draw, root, pos, dirs, tokens)
    case GetAllPythonFilesinRepo => RepoGen(draw, root, pos, dirs, tokens)
    case _ => TempPyGen(draw, root, pos, dirs, tokens)
  }

  /** The generator `main_fuzz` pairs with each target. */
  method MakeArgs(t: Target, env: Env, rng: Rng, fs: FileSystem) returns (r: Result<Call>)
    requires fs.Valid() && env.parse("").Some?
    modifies rng, fs
    ensures fs.Valid()
    ensures t == CheckLoggingPerData ==>
      && r == Success(CheckLoggingArgs(rng.draw, old(rng.pos), env.parse).value)
      && rng.pos == CheckLoggingArgs(rng.draw, old(rng.pos), env.parse).next
      && fs.dirs == old(fs.dirs) && fs.tokens == old(fs.tokens)
    ensures Generated(t, old(fs.dirs), old(fs.tokens), fs.dirs, fs.tokens, r)
    ensures Generate(t, env.parse, rng.draw, fs.root, old(rng.pos), old(fs.dirs), old(fs.tokens)) == Gen(r, rng.pos, fs.dirs, fs.tokens)
  {
    match t
    case CheckLoggingPerData =>
      var tree := rng.AstTree(env.parse);
      var alt := rng.String(10);
      var name := rng.Choice(TrackedNames + [alt]);
      r := Success(Call([TreeArg(tree), Str(name)], NoAux));
      assert (set x | x in AuxDirs(r.value.aux)) == {};
    case GetCSVData =>
      r := CsvArgs(rng, fs);
    case GetAllPythonFilesinRepo =>
      r := RepoDirArgs(rng, fs);
    case _ =>
      r := TempPyFileArgs(t, rng, fs);
  }
}
