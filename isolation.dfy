/**
 * The `wrapper_*` functions of `main_fuzz`: each calls its target and, in a
 * `finally` clause, removes the temporary directories the arguments came
 * with.  The target's outcome is passed on unchanged, so cleanup happens on
 * the normal and on the raising path alike.
 */
module Isolation {
  import opened Calls
  import opened Files

  /**
   * `wrapper_getPythonParseObject`, `wrapper_getDataLoadCount` and
   * `wrapper_getAllPythonFilesinRepo`: call the target with the one path,
   * then `if _tmp_dir and os.path.isdir(_tmp_dir): shutil.rmtree(...)`.
   * `None` is an absent `_tmp_dir`.
   */
  method TmpDirWrapper(t: Target, env: Env, fs: FileSystem, path: Value, tmpDir: Option<string>) returns (o: Outcome)
    requires fs.Valid()
    modifies fs
    ensures fs.Valid() && fs.tokens == old(fs.tokens)
    ensures o == env.target(t, [path], old(fs.dirs))
    ensures fs.dirs == if tmpDir.Some? then WithoutTree(old(fs.dirs), tmpDir.value) else old(fs.dirs)
  {
    o := env.target(t, [path], fs.dirs);
    if tmpDir.Some? && tmpDir.value != "" && IsDir(fs.dirs, tmpDir.value) {
      fs.RmTree(tmpDir.value);
    }
  }

  /**
   * `wrapper_getCSVData`: call the target with the scripts and the
   * repository name, then, when `_tmp_dirs` is a non-empty list, remove
   * each of its directories that still exists, in order.
   */
  method CsvWrapper(env: Env, fs: FileSystem, scripts: Value, repo: Value, tmpDirs: Option<seq<string>>) returns (o: Outcome)
    requires fs.Valid()
    modifies fs
    ensures fs.Valid() && fs.tokens == old(fs.tokens)
    ensures o == env.target(GetCSVData, [scripts, repo], old(fs.dirs))
    ensures fs.dirs == if tmpDirs.Some? then RemoveTrees(old(fs.dirs), tmpDirs.value) else old(fs.dirs)
  {
    o := env.target(GetCSVData, [scripts, repo], fs.dirs);
    if tmpDirs.Some? && tmpDirs.value != [] {
      var ds := tmpDirs.value;
      for i := 0 to |ds|
        invariant fs.Valid() && fs.tokens == old(fs.tokens)
        invariant fs.dirs == RemoveTrees(old(fs.dirs), ds[..i])
      {
        assert ds[..i + 1][..i] == ds[..i];
        if IsDir(fs.dirs, ds[i]) {
          fs.RmTree(ds[i]);
        }
      }
      assert ds[..|ds|] == ds;
    }
  }

  /**
   * The function `fuzz_function` calls for target `t`: the wrapper with
   * the generated arguments bound to its parameters, or, for
   * `checkLoggingPerData`, the target itself.  The target sees the file
   * system as the generator left it; afterwards every directory the
   * metadata names is gone.
   */
  method Invoke(t: Target, env: Env, fs: FileSystem, call: Call) returns (o: Outcome)
    requires fs.Valid() && Fits(t, call)
    modifies fs
    ensures fs.Valid() && fs.tokens == old(fs.tokens)
    ensures o == env.target(t, call.args, old(fs.dirs))
    ensures fs.dirs == RemoveTrees(old(fs.dirs), AuxDirs(call.aux))
  {
    match t
    case CheckLoggingPerData =>
      o := env.target(t, call.args, fs.dirs);
    case GetCSVData =>
      var tmpDirs := if call.aux.TmpDirs? then Some(call.aux.dirs) else None;
      o := CsvWrapper(env, fs, call.args[0], call.args[1], tmpDirs);
      assert call.args == [call.args[0], call.args[1]];
    case _ =>
      var tmpDir := if call.aux.TmpDir? then Some(call.aux.dir) else None;
      o := TmpDirWrapper(t, env, fs, call.args[0], tmpDir);
      assert call.args == [call.args[0]];
      if call.aux.TmpDir? {
        assert AuxDirs(call.aux)[..0] == [];
      }
  }

  /**
   * The key cleanup property: when the file system before a call was
   * `base` plus exactly the directories the call's metadata names, the
   * call leaves it as `base` again, whether the target returned or raised.
   */
  lemma InvokeRestores(base: Dirs, view: Dirs, call: Call)
    requires Extends(base, view, AuxDirs(call.aux))
    ensures RemoveTrees(view, AuxDirs(call.aux)) == base
    ensures forall d :: d in AuxDirs(call.aux) ==> d !in RemoveTrees(view, AuxDirs(call.aux))
  {
    CleanupRestores(base, view, AuxDirs(call.aux));
  }
}
