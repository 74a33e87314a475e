/**
 * `fuzz_function`: the counted loop that generates arguments, calls the
 * target inside a catch-all and logs every fault the target raises.  Only
 * the target call is inside the `try`: a fault from the generator or from
 * opening the log ends the whole run.
 */
module Driver {
  import opened Calls
  import opened Random
  import opened Files
  import opened Generators
  import opened Isolation
  import opened Logging

  /** Where a fault that escapes `fuzz_function` came from. */
  datatype Stage = MakingArgs | LoggingCrash

  /** How a call of `fuzz_function` ended. */
  datatype Run = Completed | Aborted(at: nat, stage: Stage, fault: Fault)

  /** One pass of the loop: the generated call, the file system the target saw, and how the target ended. */
  datatype Iteration = Iteration(call: Call, view: Dirs, outcome: Outcome)

  /** How many of the iterations raised. */
  function FaultCount(its: seq<Iteration>): (n: nat)
  {
    if its == [] then 0
    else FaultCount(its[..|its| - 1]) + if its[|its| - 1].outcome.Raised? then 1 else 0
  }

  /**
   * What a crash block of one target is made from: the foreign renderers,
   * the target's display name and the log's clock.
   */
  datatype Sink = Sink(env: Env, name: string, clock: nat -> string)

  /** The fields of the block `log_crash` writes for the fault `exc` of `call`, at log attempt `k`. */
  function Fields(sink: Sink, call: Call, exc: Fault, k: nat): BlockFields
  {
    BlockFields(sink.clock(k), sink.name, sink.env.reprArgs(call.args), sink.env.reprKwargs(call.aux), sink.env.formatException(exc))
  }

  /**
   * The blocks `fuzz_function` appends to the log over the iterations
   * `its`: one for each raising iteration, in order, the `k`-th one written
   * at log attempt `start + k`; none for an iteration that returned.
   */
  function Crashes(sink: Sink, its: seq<Iteration>, start: nat): seq<BlockFields>
  {
    if its == [] then []
    else
      var init, last := its[..|its| - 1], its[|its| - 1];
      Crashes(sink, init, start)
      + if last.outcome.Raised? then [Fields(sink, last.call, last.outcome.fault, start + FaultCount(init))] else []
  }

  /** One block per raising iteration. */
  lemma {:induction false} CrashesCount(sink: Sink, its: seq<Iteration>, start: nat)
    ensures |Crashes(sink, its, start)| == FaultCount(its)
    decreases |its|
  {
    if its != [] {
      CrashesCount(sink, its[..|its| - 1], start);
    }
  }

  /**
   * The blocks of a longer run extend those of a shorter one: the blocks of
   * `a + b` are those of `a` followed by those of `b`, whose attempt
   * numbers continue where `a` stopped.
   */
  lemma {:induction false} CrashesSplit(sink: Sink, a: seq<Iteration>, b: seq<Iteration>, start: nat)
    ensures FaultCount(a + b) == FaultCount(a) + FaultCount(b)
    ensures Crashes(sink, a + b, start) == Crashes(sink, a, start) + Crashes(sink, b, start + FaultCount(a))
    decreases |b|
  {
    if b == [] {
      assert a + b == a;
    } else {
      var b' := b[..|b| - 1];
      assert (a + b)[..|a + b| - 1] == a + b';
      assert (a + b)[|a + b| - 1] == b[|b| - 1];
      CrashesSplit(sink, a, b', start);
    }
  }

  /**
   * A raising iteration `j` has its own block in the log, in its place:
   * the blocks before it, its block, the blocks after it.
   */
  lemma BlockInPlace(sink: Sink, its: seq<Iteration>, start: nat, j: nat)
    requires j < |its| && its[j].outcome.Raised?
    ensures Crashes(sink, its, start) ==
      Crashes(sink, its[..j], start)
      + [Fields(sink, its[j].call, its[j].outcome.fault, start + FaultCount(its[..j]))]
      + Crashes(sink, its[j + 1..], start + FaultCount(its[..j]) + 1)
  {
    assert its == its[..j + 1] + its[j + 1..];
    CrashesSplit(sink, its[..j + 1], its[j + 1..], start);
    assert its[..j + 1][..j] == its[..j];
  }

  /**
   * An iteration that took place as `fuzz_function` runs it: the generated call
   * binds to the target and has its shape, the target saw `base` plus
   * exactly the directories made for the call, each holding what the
   * generator wrote into it, and the outcome is the target's on that view.
   */
  ghost predicate Faithful(t: Target, env: Env, base: Dirs, it: Iteration)
  {
    && Fits(t, it.call) && Shaped(t, it.call)
    && Extends(base, it.view, AuxDirs(it.call.aux))
    && (forall d :: d in AuxDirs(it.call.aux) ==> Populated(t, it.view, d))
    && it.outcome == env.target(t, it.call.args, it.view)
  }

  /** Every iteration of a run was `Faithful`. */
  ghost predicate AllFaithful(t: Target, env: Env, base: Dirs, its: seq<Iteration>)
    decreases |its|
  {
    its == [] || (AllFaithful(t, env, base, its[..|its| - 1]) && Faithful(t, env, base, its[|its| - 1]))
  }

  /** Each iteration of a faithful run is faithful. */
  lemma {:induction false} AllFaithfulAt(t: Target, env: Env, base: Dirs, its: seq<Iteration>, j: nat)
    requires AllFaithful(t, env, base, its) && j < |its|
    ensures Faithful(t, env, base, its[j])
    decreases |its|
  {
    if j < |its| - 1 {
      AllFaithfulAt(t, env, base, its[..|its| - 1], j);
    }
  }

  /**
   * No directory made for an iteration of a faithful run was there before
   * the run; so once the file system is back to `base`, as `FuzzFunction`
   * ensures, none of them is left.
   */
  lemma NothingLeft(t: Target, env: Env, base: Dirs, its: seq<Iteration>, j: nat, d: string)
    requires AllFaithful(t, env, base, its) && j < |its| && d in AuxDirs(its[j].call.aux)
    ensures d !in base && d in its[j].view
  {
    AllFaithfulAt(t, env, base, its, j);
  }

  /** The most directory names `n` passes of the loop over `t` can take: `MaxDirs(t)` each. */
  function Allowance(t: Target, n: nat): nat
  {
    if n == 0 then 0 else Allowance(t, n - 1) + MaxDirs(t)
  }

  lemma {:induction false} AllowanceIs(t: Target, n: nat)
    ensures Allowance(t, n) == n * MaxDirs(t)
  {
    if n > 0 {
      AllowanceIs(t, n - 1);
    }
  }

  /** A pass that is not the last leaves room for one more pass's names. */
  lemma {:induction false} Budget(t: Target, n: nat, i: nat)
    requires i < n
    ensures Allowance(t, i) + MaxDirs(t) <= Allowance(t, n)
    decreases n
  {
    if i + 1 < n {
      Budget(t, n - 1, i);
    }
  }

  /** No more faults than iterations. */
  lemma {:induction false} FaultCountBound(its: seq<Iteration>)
    ensures FaultCount(its) <= |its|
    ensures its != [] && its[|its| - 1].outcome.Raised? ==> FaultCount(its) >= 1
    decreases |its|
  {
    if its != [] {
      FaultCountBound(its[..|its| - 1]);
    }
  }

  /** Opening the log at attempt `k` raises `fault`. */
  predicate FailsAt(failure: nat -> Option<Fault>, k: nat, fault: Fault)
  {
    failure(k) == Some(fault)
  }

  /** The iterations whose faults reached the log: all of them unless logging the last one failed. */
  function Logged(run: Run, its: seq<Iteration>): seq<Iteration>
  {
    if run.Aborted? && run.stage == LoggingCrash && its != [] then its[..|its| - 1] else its
  }

  /** When the log failed, the iteration left out of the log is the last one, which raised. */
  lemma LoggedLast(run: Run, its: seq<Iteration>)
    requires run.Aborted? && run.stage == LoggingCrash && its != [] && its[|its| - 1].outcome.Raised?
    ensures FaultCount(its) == FaultCount(Logged(run, its)) + 1
  {
  }

  /**
   * The first half of one pass of the loop of `fuzz_function`:
   * `args, kwargs = make_args()` and the wrapped call inside `try`.  The
   * result is the iteration, or the fault the generator raised, which is
   * outside the `try`.
   */
  method Attempt(t: Target, env: Env, rng: Rng, fs: FileSystem) returns (r: Result<Iteration>)
    requires fs.Valid() && env.parse("").Some?
    modifies rng, fs
    ensures fs.Valid()
    ensures Generate(t, env.parse, rng.draw, fs.root, old(rng.pos), old(fs.dirs), old(fs.tokens))
         == if r.Success? then Gen(Success(r.value.call), rng.pos, r.value.view, fs.tokens)
            else Gen(Failure(r.error), rng.pos, fs.dirs, fs.tokens)
    ensures r.Failure? ==>
      && r.error == NoUsableName && fs.tokens == [] && |old(fs.tokens)| < MaxDirs(t)
      && (forall d :: d in old(fs.dirs) ==> d in fs.dirs && fs.dirs[d] == old(fs.dirs)[d])
    ensures r.Success? ==>
      && Faithful(t, env, old(fs.dirs), r.value)
      && fs.dirs == old(fs.dirs) && |old(fs.tokens)| <= |fs.tokens| + MaxDirs(t)
  {
    var made := MakeArgs(t, env, rng, fs);
    if made.Failure? {
      return Failure(made.error);
    }
    var call := made.value;
    var view := fs.dirs;
    var o := Invoke(t, env, fs, call);
    InvokeRestores(old(fs.dirs), view, call);
    r := Success(Iteration(call, view, o));
  }

  /**
   * The `except` clause of one pass: `log_crash` when the target raised,
   * nothing otherwise.  Given the log of the iterations `done` so far, the
   * log afterwards is that of `done + [it]`, unless the log could not be
   * opened, in which case it is unchanged and the fault is returned.
   */
  method Record(name: string, env: Env, log: CrashLog, it: Iteration,
                ghost done: seq<Iteration>, ghost start: nat, ghost initial: string)
    returns (logFault: Option<Fault>)
    requires log.attempts == start + FaultCount(done)
    requires log.content == initial + Render(Crashes(Sink(env, name, log.clock), done, start))
    modifies log
    ensures logFault == (if it.outcome.Raised? then log.failure(old(log.attempts)) else None)
    ensures logFault.Some? ==> log.attempts == old(log.attempts) + 1 && log.content == old(log.content)
    ensures logFault.None? ==>
      && log.attempts == start + FaultCount(done + [it])
      && log.content == initial + Render(Crashes(Sink(env, name, log.clock), done + [it], start))
  {
    logFault := None;
    ghost var sink := Sink(env, name, log.clock);
    CrashesSnoc(sink, done, it, start);
    if it.outcome.Raised? {
      ghost var b := Fields(sink, it.call, it.outcome.fault, log.attempts);
      logFault := log.LogCrash(name, it.call.args, it.call.aux, it.outcome.fault, env);
      if logFault.None? {
        AppendBlock(initial, Crashes(sink, done, start), b, old(log.content), log.content);
      }
    } else {
      assert Crashes(sink, done, start) + [] == Crashes(sink, done, start);
    }
  }

  /** One more iteration adds its block, if any, numbered with the attempt the log has reached. */
  lemma CrashesSnoc(sink: Sink, its: seq<Iteration>, it: Iteration, start: nat)
    ensures FaultCount(its + [it]) == FaultCount(its) + if it.outcome.Raised? then 1 else 0
    ensures Crashes(sink, its + [it], start) == Crashes(sink, its, start)
      + if it.outcome.Raised? then [Fields(sink, it.call, it.outcome.fault, start + FaultCount(its))] else []
  {
    assert (its + [it])[..|its|] == its;
  }

  /**
   * What a run has established after the iterations `its`: each of them was
   * faithful, the log was opened once per raising iteration, and it holds
   * `initial` followed by the blocks of the raising iterations among
   * `logged`, numbered from attempt `start`.
   */
  ghost predicate Consistent(t: Target, env: Env, sink: Sink, base: Dirs, start: nat, initial: string,
                             its: seq<Iteration>, logged: seq<Iteration>, attempts: nat, content: string)
  {
    && AllFaithful(t, env, base, its)
    && attempts == start + FaultCount(its)
    && content == initial + Render(Crashes(sink, logged, start))
  }

  /**
   * One pass of the loop of `fuzz_function`: generate, call, and log a
   * fault the target raised.  Given the run so far, `done`, the run
   * afterwards includes the new iteration, whose block is in the log unless
   * the log could not be opened.
   */
  method Pass(t: Target, name: string, env: Env, rng: Rng, fs: FileSystem, log: CrashLog,
              ghost done: seq<Iteration>, ghost start: nat, ghost initial: string)
    returns (r: Result<Iteration>, logFault: Option<Fault>)
    requires fs.Valid() && env.parse("").Some?
    requires Consistent(t, env, Sink(env, name, log.clock), fs.dirs, start, initial, done, done, log.attempts, log.content)
    modifies rng, fs, log
    ensures fs.Valid()
    ensures r.Failure? ==>
      && r.error == NoUsableName && fs.tokens == [] && |old(fs.tokens)| < MaxDirs(t)
      && (forall d :: d in old(fs.dirs) ==> d in fs.dirs && fs.dirs[d] == old(fs.dirs)[d])
      && logFault.None? && log.content == old(log.content) && log.attempts == old(log.attempts)
    ensures r.Success? ==>
      && fs.dirs == old(fs.dirs) && |old(fs.tokens)| <= |fs.tokens| + MaxDirs(t)
      && Consistent(t, env, Sink(env, name, log.clock), old(fs.dirs), start, initial, done + [r.value], if logFault.None? then done + [r.value] else done,
                    log.attempts, log.content)
    ensures logFault.Some? ==>
      && r.Success? && r.value.outcome.Raised?
      && log.attempts == old(log.attempts) + 1 && logFault == log.failure(old(log.attempts))
  {
    logFault := None;
    r := Attempt(t, env, rng, fs);
    if r.Success? {
      logFault := Record(name, env, log, r.value, done, start, initial);
      assert AllFaithful(t, env, old(fs.dirs), done + [r.value]) by {
        assert (done + [r.value])[..|done|] == done;
      }
    }
  }

  /**
   * One pass of the loop of `fuzz_function` in the run so far, `its`, of
   * `iterations` ones: either the run goes on with one more iteration, or
   * it ends with the fault the generator or the log raised.
   */
  method Step(t: Target, name: string, iterations: nat, env: Env, rng: Rng, fs: FileSystem, log: CrashLog,
              its: seq<Iteration>, ghost supply: seq<string>, ghost start: nat, ghost initial: string)
    returns (stop: Option<Run>, next: seq<Iteration>)
    requires |its| < iterations && fs.Valid() && env.parse("").Some?
    requires |supply| <= |fs.tokens| + Allowance(t, |its|)
    requires Consistent(t, env, Sink(env, name, log.clock), fs.dirs, start, initial, its, its, log.attempts, log.content)
    modifies rng, fs, log
    ensures fs.Valid()
    ensures stop.None? ==>
      && |next| == |its| + 1 && fs.dirs == old(fs.dirs)
      && |supply| <= |fs.tokens| + Allowance(t, |next|)
      && Consistent(t, env, Sink(env, name, log.clock), old(fs.dirs), start, initial, next, next, log.attempts, log.content)
    ensures stop.Some? ==>
      && stop.value.Aborted? && stop.value.at == |its|
      && Consistent(t, env, Sink(env, name, log.clock), old(fs.dirs), start, initial, next, Logged(stop.value, next), log.attempts, log.content)
    ensures stop.Some? && stop.value.stage == MakingArgs ==>
      && next == its
      && stop.value.fault == NoUsableName && fs.tokens == [] && |supply| < Allowance(t, iterations)
      && (forall d :: d in old(fs.dirs) ==> d in fs.dirs && fs.dirs[d] == old(fs.dirs)[d])
    ensures stop.Some? && stop.value.stage == LoggingCrash ==>
      && |next| == |its| + 1 && next[|its|].outcome.Raised? && fs.dirs == old(fs.dirs)
      && FailsAt(log.failure, start + FaultCount(Logged(stop.value, next)), stop.value.fault)
  {
    var r, logFault := Pass(t, name, env, rng, fs, log, its, start, initial);
    if r.Failure? {
      Budget(t, iterations, |its|);
      return Some(Aborted(|its|, MakingArgs, r.error)), its;
    }
    next := its + [r.value];
    if logFault.Some? {
      var run := Aborted(|its|, LoggingCrash, logFault.value);
      assert Logged(run, next) == its by { assert next[..|its|] == its; }
      assert FailsAt(log.failure, start + FaultCount(its), run.fault);
      return Some(run), next;
    }
    stop := None;
  }

  /**
   * `fuzz_function(func, name, make_args, iterations)`.  Every iteration
   * generates a call, runs it and, whatever the target did, leaves the file
   * system as it was before the run; a raising target only adds a block to
   * the log.  The run completes all `iterations` unless the generator or the
   * log fails: the generator only when the names for temporary directories
   * ran out, the log only when it could not be opened.
   */
  method FuzzFunction(t: Target, name: string, iterations: nat, env: Env, rng: Rng, fs: FileSystem, log: CrashLog)
    returns (run: Run, its: seq<Iteration>)
    requires fs.Valid() && env.parse("").Some?
    modifies rng, fs, log
    ensures fs.Valid()
    ensures Consistent(t, env, Sink(env, name, log.clock), old(fs.dirs), old(log.attempts), old(log.content),
                       its, Logged(run, its), log.attempts, log.content)
    ensures run.Completed? ==>
      && |its| == iterations && fs.dirs == old(fs.dirs)
      && |old(fs.tokens)| <= |fs.tokens| + Allowance(t, iterations)
    ensures run.Aborted? && run.stage == MakingArgs ==>
      && run.at == |its| < iterations
      && run.fault == NoUsableName && fs.tokens == [] && |old(fs.tokens)| < Allowance(t, iterations)
      && (forall d :: d in old(fs.dirs) ==> d in fs.dirs && fs.dirs[d] == old(fs.dirs)[d])
    ensures run.Aborted? && run.stage == LoggingCrash ==>
      && run.at + 1 == |its| <= iterations && its[run.at].outcome.Raised? && fs.dirs == old(fs.dirs)
      && FailsAt(log.failure, old(log.attempts) + FaultCount(Logged(run, its)), run.fault)
  {
    run, its := Completed, [];
    while |its| < iterations
      invariant |its| <= iterations
      invariant fs.Valid() && fs.dirs == old(fs.dirs)
      invariant |old(fs.tokens)| <= |fs.tokens| + Allowance(t, |its|)
      invariant Consistent(t, env, Sink(env, name, log.clock), old(fs.dirs), old(log.attempts), old(log.content),
                           its, its, log.attempts, log.content)
      decreases iterations - |its|
    {
      var stop, next := Step(t, name, iterations, env, rng, fs, log, its, old(fs.tokens), old(log.attempts), old(log.content));
      if stop.Some? {
        run, its := stop.value, next;
        break;
      }
      its := next;
    }
  }
}
