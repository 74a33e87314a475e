/**
 * `main_fuzz`: `fuzz_function` over the five targets in a fixed order,
 * each under its display name and with its own generator.  A fault that
 * escapes one run escapes `main_fuzz` too, and the targets after it do not
 * run.
 */
module Main {
  import opened Calls
  import opened Random
  import opened Files
  import opened Logging
  import opened Driver

  /** The targets `main_fuzz` fuzzes, in the order it fuzzes them. */
  const Targets: seq<Target> := [GetPythonParseObject, CheckLoggingPerData, GetDataLoadCount, GetAllPythonFilesinRepo, GetCSVData]

  /** The iteration count `main_fuzz` passes to every `fuzz_function` call. */
  const FuzzIterations: nat := 200

  /** The names for temporary directories the first `n` runs of `main_fuzz` may use up. */
  function Spent(n: nat): nat
    requires n <= |Targets|
  {
    if n == 0 then 0 else Spent(n - 1) + FuzzIterations * MaxDirs(Targets[n - 1])
  }

  /** Later runs may use up no fewer names. */
  lemma {:induction false} SpentGrows(m: nat, n: nat)
    requires m <= n <= |Targets|
    ensures Spent(m) <= Spent(n)
    decreases n
  {
    if m < n {
      SpentGrows(m, n - 1);
    }
  }

  /** Opening the log never raises. */
  ghost predicate NeverFails(failure: nat -> Option<Fault>)
  {
    forall k :: failure(k).None?
  }

  /**
   * A `fuzz_function` call of `main_fuzz` on the target `t`, under its
   * display name: everything `FuzzFunction` promises, with the attempt at
   * which the log could not be opened being the last one made.
   */
  method FuzzTarget(t: Target, iterations: nat, env: Env, rng: Rng, fs: FileSystem, log: CrashLog) returns (run: Run, its: seq<Iteration>)
    requires fs.Valid() && env.parse("").Some?
    modifies rng, fs, log
    ensures fs.Valid()
    ensures Consistent(t, env, Sink(env, TargetName(t), log.clock), old(fs.dirs), old(log.attempts), old(log.content),
                       its, Logged(run, its), log.attempts, log.content)
    ensures run.Completed? ==>
      && |its| == iterations && fs.dirs == old(fs.dirs)
      && |old(fs.tokens)| <= |fs.tokens| + iterations * MaxDirs(t)
    ensures run.Aborted? && run.stage == MakingArgs ==>
      && run.at == |its| < iterations
      && run.fault == NoUsableName && fs.tokens == [] && |old(fs.tokens)| < iterations * MaxDirs(t)
      && (forall d :: d in old(fs.dirs) ==> d in fs.dirs && fs.dirs[d] == old(fs.dirs)[d])
    ensures run.Aborted? && run.stage == LoggingCrash ==>
      && run.at + 1 == |its| <= iterations && its[run.at].outcome.Raised? && fs.dirs == old(fs.dirs)
      && 0 < log.attempts && FailsAt(log.failure, log.attempts - 1, run.fault)
  {
    run, its := FuzzFunction(t, TargetName(t), iterations, env, rng, fs, log);
    AllowanceIs(t, iterations);
    if run.Aborted? && run.stage == LoggingCrash {
      LoggedLast(run, its);
    }
  }

  /**
   * One pass of the sequence of `main_fuzz`: the `j`-th `fuzz_function`
   * call, after runs that used up at most `Spent(j)` of the names the
   * sequence started with, `supply`.  What the next pass depends on: the
   * run was faithful, the log only grew, the names it used, and why it
   * stopped if it did not complete.
   */
  method MainStep(j: nat, env: Env, rng: Rng, fs: FileSystem, log: CrashLog, ghost supply: seq<string>)
    returns (run: Run, its: seq<Iteration>)
    requires j < |Targets| && fs.Valid() && env.parse("").Some?
    requires |supply| <= |fs.tokens| + Spent(j)
    modifies rng, fs, log
    ensures fs.Valid()
    ensures AllFaithful(Targets[j], env, old(fs.dirs), its)
    ensures old(log.content) <= log.content
    ensures run.Completed? ==> |its| == FuzzIterations && fs.dirs == old(fs.dirs) && |supply| <= |fs.tokens| + Spent(j + 1)
    ensures run.Aborted? && run.stage == MakingArgs ==>
      && run.fault == NoUsableName && fs.tokens == [] && |supply| < Spent(j + 1)
      && (forall d :: d in old(fs.dirs) ==> d in fs.dirs && fs.dirs[d] == old(fs.dirs)[d])
    ensures run.Aborted? && run.stage == LoggingCrash ==>
      fs.dirs == old(fs.dirs) && 0 < log.attempts && FailsAt(log.failure, log.attempts - 1, run.fault)
  {
    run, its := FuzzTarget(Targets[j], FuzzIterations, env, rng, fs, log);
  }

  /**
   * `main_fuzz()`: `fuzz_function` over each target in turn, under its
   * display name, `FuzzIterations` times.  A fault that escapes one run
   * ends `main_fuzz`, so every run but the last completed, and the last one
   * is the fifth or aborted: because the names for temporary directories
   * ran out, or because the log could not be opened.  With names enough
   * for every run and a log that always opens, all five runs complete.
   * The log only grows (what each run appends is stated by `FuzzTarget`),
   * each run was faithful to its own target, and the file system is back
   * as it was unless a generator ran out of names.
   */
  method MainFuzz(env: Env, rng: Rng, fs: FileSystem, log: CrashLog) returns (runs: seq<Run>, trace: seq<seq<Iteration>>)
    requires fs.Valid() && env.parse("").Some?
    modifies rng, fs, log
    ensures fs.Valid()
    ensures 0 < |runs| == |trace| <= |Targets|
    ensures forall m | 0 <= m < |runs| - 1 :: runs[m].Completed?
    ensures |runs| == |Targets| || runs[|runs| - 1].Aborted?
    ensures forall m | 0 <= m < |runs| :: runs[m].Completed? ==> |trace[m]| == FuzzIterations
    ensures forall m | 0 <= m < |runs| :: AllFaithful(Targets[m], env, old(fs.dirs), trace[m])
    ensures old(log.content) <= log.content
    ensures forall d :: d in old(fs.dirs) ==> d in fs.dirs && fs.dirs[d] == old(fs.dirs)[d]
    ensures !(runs[|runs| - 1].Aborted? && runs[|runs| - 1].stage == MakingArgs) ==> fs.dirs == old(fs.dirs)
    ensures runs[|runs| - 1].Completed? ==> |old(fs.tokens)| <= |fs.tokens| + Spent(|runs|)
    ensures runs[|runs| - 1].Aborted? && runs[|runs| - 1].stage == MakingArgs ==>
      runs[|runs| - 1].fault == NoUsableName && fs.tokens == [] && |old(fs.tokens)| < Spent(|runs|)
    ensures runs[|runs| - 1].Aborted? && runs[|runs| - 1].stage == LoggingCrash ==>
      0 < log.attempts && FailsAt(log.failure, log.attempts - 1, runs[|runs| - 1].fault)
    ensures Spent(|Targets|) <= |old(fs.tokens)| && NeverFails(log.failure) ==>
      |runs| == |Targets| && runs[|runs| - 1].Completed?
  {
    runs, trace := [], [];
    var j := 0;
    while j < |Targets|
      invariant j <= |Targets| && j == |runs| == |trace|
      invariant forall m | 0 <= m < j :: runs[m].Completed? && |trace[m]| == FuzzIterations
      invariant forall m | 0 <= m < j :: AllFaithful(Targets[m], env, old(fs.dirs), trace[m])
      invariant fs.Valid() && fs.dirs == old(fs.dirs)
      invariant |old(fs.tokens)| <= |fs.tokens| + Spent(j)
      invariant old(log.content) <= log.content
    {
      var run, its := MainStep(j, env, rng, fs, log, old(fs.tokens));
      forall m | 0 <= m < j + 1
        ensures AllFaithful(Targets[m], env, old(fs.dirs), (trace + [its])[m])
      {
        if m < j {
          assert (trace + [its])[m] == trace[m];
        }
      }
      runs, trace := runs + [run], trace + [its];
      j := j + 1;
      if run.Aborted? {
        break;
      }
    }
    SpentGrows(j, |Targets|);
  }
}
