# A verified model of the `fuzz.py` harness

`forensicsProject/fuzz.py` fuzzes five functions of the FAME-ML forensics
tool. Its entry point is `main_fuzz`, which runs `fuzz_function` once per
target. Each run makes 200 passes, and each pass does three things:

- An `args_*` generator builds random positional arguments, creating
  temporary directories and files where the target needs real input.
- Four of the five targets are called through a `wrapper_*` function;
  `checkLoggingPerData` is called directly. In a `finally` clause, the
  wrapper removes the directories the generator reported in `_tmp_dir` or
  `_tmp_dirs`.
- If the target raised, `log_crash` appends a fixed-shape block to
  `fuzz_crashes.log`.

The model is split into modules as follows:

- `Calls` (calls.dfy): the shared vocabulary.
  - The values passed to targets and the cleanup metadata.
  - How a call ends: `Ok` or `Raised(fault)`.
  - The foreign functions, gathered in `Env`: the five targets,
    `ast.parse`, `repr` and `traceback.format_exception`.
- `Text` (text.dfy):
  - the alphabet of `random_string`;
  - Python's `s * n`;
  - `str(i)`.
- `Random` (rng.dfy): randomness is an explicit stream `draw: nat -> nat`.
  - `randint`, `choice` and `random() < p` each consume one draw.
  - The generators that touch no file are functions of the stream.
  - The class `Rng` holds the position reached in the stream.
- `Files` (files.dfy): the file system is a map from live directory names to
  their files.
  - `mkdtemp` draws unique names from a supply, and freshness is assumed.
  - Removal is "delete if it is a directory, never fail".
- `Logging` (crashlog.dfy):
  - the text of one crash block;
  - a parser that reads a block back into its fields;
  - the append-only class `CrashLog`.
- `Generators` (generators.dfy): `make_temp_py_file` and the five `args_*`
  closures, as methods on `Rng` and `FileSystem`.
- `Isolation` (isolation.dfy): the `wrapper_*` functions and the dispatch
  `fuzz_function` performs for each target.
- `Driver` (driver.dfy): the loop of `fuzz_function`.
- `Main` (main.dfy): `main_fuzz`, which runs `fuzz_function` over the five
  targets in order, each under its display name.

Some behaviour is modelled as the code is written:

- Only `func(*args, **kwargs)` is inside the `try` of `fuzz_function`
  (fuzz.py:73-78). A fault raised by a generator or by opening the log
  therefore ends the run. The model reports it as `Run.Aborted`, tagged
  `MakingArgs` or `LoggingCrash`.
  - A target's fault is always caught and logged.
- The logged `Kwargs` are `repr(kwargs)` of the dictionary the generator
  returned (fuzz.py:30, :78). They therefore include `_tmp_dir` or
  `_tmp_dirs`.
- `args_checkLoggingPerData` evaluates `random_string(10)` before
  `random.choice`, whichever name is then chosen (fuzz.py:110). The draws
  are consumed in that order.

## Model

| member | source | states |
|---|---|---|
| Text.LettersAsWritten | forensicsProject/fuzz.py:38 | the alphabet is exactly `ascii_letters + digits + "_-"`, in that order |
| Text.LetterIndex | forensicsProject/fuzz.py:38 | every character a name may hold sits at some position of the 64-character alphabet |
| Text.Repeat | forensicsProject/fuzz.py:61 | `s * n` has `n` times the length of `s` |
| Text.DecimalInjective | forensicsProject/fuzz.py:150 | distinct loop indices render as distinct decimal strings |
| Random.ChanceOdds | forensicsProject/fuzz.py:60 | `random() < p` as a draw: never true for `p == 0`, always true for `p == 1`, and either outcome possible in between (lines 85, 123, 146 and 179 draw the same way) |
| Random.Rng.Chance | forensicsProject/fuzz.py:60 | `random() < p` is `ChanceAt` of the current position and consumes exactly one draw (also lines 85, 123, 146, 179) |
| Random.Rng.RandInt | forensicsProject/fuzz.py:37 | `randint(lo, hi)` is `RandIntAt` of the current position, lies in `lo..hi` and consumes exactly one draw (also lines 61, 149, 178) |
| Random.Rng.Choice | forensicsProject/fuzz.py:39 | `choice(xs)` is `ChoiceAt` of the current position, an element of `xs`, and consumes exactly one draw (also lines 51, 110) |
| Random.RandIntAt | forensicsProject/fuzz.py:37 | `randint(lo, hi)` lies in `lo..hi`, both ends included |
| Random.RandIntOnto | forensicsProject/fuzz.py:37 | every value of `lo..hi` is the outcome of some draw |
| Random.ChoiceAt | forensicsProject/fuzz.py:39 | `choice(xs)` is an element of `xs` |
| Random.RandomString | forensicsProject/fuzz.py:36-39 | length at most `max_len`, every character from the alphabet, `max_len == 0` gives `""`, and one draw for the length plus one per character |
| Random.RandomStringOnto | forensicsProject/fuzz.py:36-39 | every alphabet string of at most `max_len` characters can come out, the empty one and one of length exactly `max_len` included |
| Random.AstSource | forensicsProject/fuzz.py:60-63 | the parsed text is one to five copies of `x = 1` or a random string of at most 40 characters |
| Random.RandomAstTree | forensicsProject/fuzz.py:59-68 | the tree is the parse of the drawn text or, when that fails, the parse of `""`; a parse failure never escapes |
| Random.CheckLoggingArgs | forensicsProject/fuzz.py:108-111 | a random tree and a name that is `data`, `model` or a string of at most 10 characters, and no keyword arguments |
| Random.Rng.String | forensicsProject/fuzz.py:36-39 | the method returns `RandomString` of the current position and advances past its draws |
| Random.Rng.AstTree | forensicsProject/fuzz.py:59-68 | the method returns `RandomAstTree` of the current position and advances past its draws |
| Calls.TargetNameInjective | forensicsProject/fuzz.py:102 | the five display names passed to `fuzz_function` are pairwise distinct, so a logged `Function:` line names one target (lines 115, 139, 167, 199 are the others) |
| Files.WithoutTree | forensicsProject/fuzz.py:97-98 | removing a directory that is live deletes it and nothing else; an empty name is never a directory and removes nothing (lines 194-195 remove the same way) |
| Files.TempPathInjective | forensicsProject/fuzz.py:52 | under the two prefixes, distinct tokens give distinct directory paths |
| Files.RemoveTreesExact | forensicsProject/fuzz.py:192-195 | removing a list of directories deletes exactly its non-empty names and leaves every other directory and its files unchanged |
| Files.RemoveTreesLeavesNone | forensicsProject/fuzz.py:192-195 | no listed directory is live after the removal |
| Files.RemoveTreesIdempotent | forensicsProject/fuzz.py:97-98 | removing the same directories again changes nothing, because an absent directory is skipped |
| Files.CleanupRestores | forensicsProject/fuzz.py:93-98 | removing exactly the directories a step created gives back the file system from before the step |
| Files.FileSystem.MkDTemp | forensicsProject/fuzz.py:52 | a fresh directory, not live before and empty, named by the next token; with no token left, `FileExistsError` and nothing changes |
| Files.FileSystem.WriteFile | forensicsProject/fuzz.py:54-55 | the one file is set to the content and nothing else changes |
| Files.FileSystem.RmTree | forensicsProject/fuzz.py:98 | the directory is gone and nothing else changes |
| Logging.RuleShape | forensicsProject/fuzz.py:26 | the separator is `"=" * 80` and holds no newline |
| Logging.CrashBlockFrame | forensicsProject/fuzz.py:26-33 | a crash block starts with the 80-character separator line and ends with the blank line that closes it |
| Logging.BlockUnderAsWritten | forensicsProject/fuzz.py:26-33 | a block is the separator, `Time: …Z`, `Function:`, `Args:`, `Kwargs:`, `Exception:`, the traceback and a blank line |
| Logging.WritesMakeBlock | forensicsProject/fuzz.py:26-33 | the eight `write` calls, one after another, append exactly one block |
| Logging.ParseUnderBlock | forensicsProject/fuzz.py:26-33 | for any one-line separator, the block parses back into the fields it was written from |
| Logging.ParseCrashBlock | forensicsProject/fuzz.py:23-33 | a crash block reads back as its time, name, `repr` texts and traceback, as long as the one-line fields hold no newline |
| Logging.RenderSnoc | forensicsProject/fuzz.py:25 | appending a block to the log appends its text |
| Logging.AppendBlock | forensicsProject/fuzz.py:25 | a log that held some text and then some blocks holds, after one more block, that text and the longer list of blocks |
| Logging.RenderSplit | forensicsProject/fuzz.py:25 | the text of two runs of blocks is the text of the first followed by the text of the second |
| Logging.CrashLog.LogCrash | forensicsProject/fuzz.py:23-33 | every call is one attempt to open the log; on success exactly one block is appended after the old content, and on failure the fault is returned and the content is unchanged |
| Generators.FileNameInjective | forensicsProject/fuzz.py:150 | `file_{i}.py` names are pairwise distinct |
| Generators.RepoFilesExact | forensicsProject/fuzz.py:149-152 | after `k` passes the directory holds exactly `file_0.py` … `file_{k-1}.py`, that is `k` files, each holding `x = 1` |
| Generators.PairedBounds | forensicsProject/fuzz.py:176-186 | `len(tmp_dirs) <= len(scripts)`, and each temporary directory's `test_file.py` is among the scripts |
| Generators.MakeTempPyFile | forensicsProject/fuzz.py:42-56 | returns a fresh directory and its `test_file.py` path; the file holds the given content verbatim, or the snippet chosen from the four; a snippet is drawn only when no content is given |
| Generators.TempPyFileArgs | forensicsProject/fuzz.py:84-91 | with a winning draw, a real script in a new directory recorded in `_tmp_dir`; otherwise a random name plus `.py` and no keyword arguments; the call, the draw position reached, the directories and the unused names are exactly `TempPyGen` of the draws, directories and names before the call, so each branch, snippet and name is tied to its draws (lines 121-128 are the same generator) |
| Generators.WriteRepoFiles | forensicsProject/fuzz.py:149-152 | the loop turns the new empty directory into `RepoFiles(k)` and changes nothing else |
| Generators.RepoDirArgs | forensicsProject/fuzz.py:145-156 | real branch: a fresh directory with `RepoFiles(k)` for a drawn `k` in `0..5`, passed as the path and recorded in `_tmp_dir`; fake branch: a random string of at most 40 characters and no keyword arguments; the call, the draw position reached, the directories and the unused names are exactly `RepoGen` of the draws, directories and names before the call |
| Generators.CsvStep | forensicsProject/fuzz.py:179-184 | one pass keeps the scripts and directories so far and appends one script: on a winning draw, the `test_file.py` of a new directory holding a chosen snippet, also appended to the directories, or `FileExistsError` with nothing changed when the names ran out; otherwise a random name plus `.py`, with the file system untouched; the pairing of scripts and directories is kept |
| Generators.CsvPass | forensicsProject/fuzz.py:179-184 | one pass of the loop over the draws: a pass that does not run out of names appends exactly one script and keeps the earlier ones; one that runs out found no name left and changed no directory |
| Generators.CsvPasses | forensicsProject/fuzz.py:178-184 | `n` passes that do not run out of names append exactly `n` scripts; passes from a state that already ran out change nothing |
| Generators.CsvPassesSnoc | forensicsProject/fuzz.py:178-184 | the passes run in loop order: `n + 1` passes are one more pass after the first `n` |
| Generators.CsvPassesStop | forensicsProject/fuzz.py:180 | once `make_temp_py_file` has raised, no later pass happens: further passes leave the state as it was |
| Generators.CsvPassesEnough | forensicsProject/fuzz.py:178-182 | each pass uses at most one name, so with at least `n` names left, `n` passes never fail |
| Generators.CsvPassStep | forensicsProject/fuzz.py:179-184 | the state `CsvStep` leaves (draw position, directories, names, scripts, `tmp_dirs`, failure) is `CsvPass` of the state before it |
| Generators.CsvLoopStep | forensicsProject/fuzz.py:179-184 | the pass after the first `i` leaves the state of `i + 1` passes of `CsvPasses`; one that fails found no name left, had used every name the loop started with, and kept every directory it found, and the passes left in the loop change nothing after it |
| Generators.CsvLoop | forensicsProject/fuzz.py:178-184 | the loop leaves exactly the state of `CsvPasses` for its count, ending at the first failure; completed, it holds `n` scripts paired with their directories; failed, the names had run out before `n` and every earlier directory is kept |
| Generators.CsvArgs | forensicsProject/fuzz.py:173-186 | the count is `randint(0, 4)` at the first draw; the scripts, `_tmp_dirs`, the directories made and the names used are those of `CsvPasses` from the next draw, so each pass's branch, snippet or fake name is tied to its draws; `dir_repo` is the `random_string(15)` drawn after the last pass, and the final draw position is stated; `_tmp_dirs` is always present; on failure, the names ran out before the drawn count, and the directories made so far stay behind; together, the call, the draw position, the directories and the unused names are exactly `CsvGen` of the draws, directories and names before the call |
| Generators.MakeArgs | forensicsProject/fuzz.py:100-202 | the generator each target is paired with produces a call that binds to it, has its shape and created exactly the fresh, populated directories its metadata names; it fails only when `mkdtemp` runs out of names; the call or fault, the draw position reached, the directories and the unused names are exactly `Generate` of the target, the draws, the directories and the names before the call, that is, the target's own `args_*` closure (lines 84-91, 108-111, 121-128, 145-156 and 173-186) |
| Isolation.TmpDirWrapper | forensicsProject/fuzz.py:93-98 | the target's outcome is passed on unchanged, and `_tmp_dir` is removed if it is a live directory, on the returning and on the raising path (lines 130-135 and 158-163 are the same wrapper) |
| Isolation.CsvWrapper | forensicsProject/fuzz.py:188-195 | the outcome is passed on, and every live directory among `_tmp_dirs` is removed, in order |
| Isolation.Invoke | forensicsProject/fuzz.py:75 | the target sees the file system as the generator left it; afterwards every directory named in the metadata has been removed |
| Isolation.InvokeRestores | forensicsProject/fuzz.py:93-98 | if the file system before a call was the base plus exactly the call's directories, the call leaves the base, with none of them live |
| Driver.CrashesCount | forensicsProject/fuzz.py:76-78 | the run logs one block per raising iteration |
| Driver.CrashesSplit | forensicsProject/fuzz.py:72-78 | the blocks of a longer run extend those of a shorter one, with attempt numbers carried on |
| Driver.CrashesSnoc | forensicsProject/fuzz.py:76-78 | one more iteration adds its block, if it raised, numbered by the attempts so far |
| Driver.BlockInPlace | forensicsProject/fuzz.py:72-78 | every raising iteration has its own block, between the blocks of earlier and later iterations |
| Driver.AllFaithfulAt | forensicsProject/fuzz.py:72-75 | every iteration of a faithful run was generated, called and observed as `fuzz_function` runs it: the call fits the target and has its generator's shape, the target saw the base plus exactly the call's directories, each holding what its generator wrote into it, and the outcome is the target's on that view |
| Driver.NothingLeft | forensicsProject/fuzz.py:93-98 | a directory made for any iteration was live while the target ran, and was not in the file system the run started from |
| Driver.FaultCountBound | forensicsProject/fuzz.py:72-78 | no more faults than iterations, and at least one when the last iteration raised |
| Driver.AllowanceIs | forensicsProject/fuzz.py:72-73 | a bound on the model's assumed supply of `mkdtemp` names, which the source does not count: `n` passes of the loop use at most `n` times the most directories one generated call creates |
| Driver.Attempt | forensicsProject/fuzz.py:73-75 | one call generated and run: either faithful with the file system restored, or the generator's `FileExistsError`; the call and the view the target saw, or the fault, together with the draw position reached and the unused names, are exactly `Generate` of the draws, directories and names before the pass, that is, `make_args()` |
| Driver.Record | forensicsProject/fuzz.py:76-78 | a raising iteration's block is appended, numbered by its attempt; if opening the log fails, that fault is returned and the log is unchanged |
| Driver.Pass | forensicsProject/fuzz.py:72-78 | one loop pass keeps the run consistent: faithful iterations, one log attempt per fault, and the log equal to the old text plus the blocks |
| Driver.Step | forensicsProject/fuzz.py:72-78 | the run goes on with one more iteration, or ends with the generator's or the log's fault, tagged by where it came from |
| Driver.FuzzFunction | forensicsProject/fuzz.py:71-78 | all `iterations` passes complete, however many targets raise; a generator or log fault ends the run early; the log is the old text plus one block per logged fault, in order; the file system is back as it was, unless a generator ran out of names |
| Main.SpentGrows | forensicsProject/fuzz.py:100-202 | a bound on the model's assumed supply of `mkdtemp` names, which the source does not count: the names the first runs may use up never decrease as more runs are counted |
| Main.FuzzTarget | forensicsProject/fuzz.py:100-105 | one `fuzz_function` call of `main_fuzz` under the target's display name: every iteration faithful, one log attempt per fault, and the log the old text plus one block per logged fault, each naming the target; completed, it made all iterations and restored the file system within its name allowance; aborted in a generator, the names ran out; aborted in the log, the last attempt to open it failed with that fault (lines 113-118, 137-142, 165-170 and 197-202 are the other four calls) |
| Main.MainStep | forensicsProject/fuzz.py:100-105 | one call of the sequence: faithful, the log only grows, and the cause of its abort if it did not complete, with the names it used counted against those the sequence started with |
| Main.MainFuzz | forensicsProject/fuzz.py:81-202 | the five targets run in order, 200 iterations each; only an escaped fault stops the sequence early, and the last run then says why: the names ran out, or opening the log failed with that fault; with names enough for every run and a log that always opens, all five complete; every run was faithful to its target; the log only grows; the file system ends where it started unless a generator ran out of names |

## Left out

- The five targets are opaque. Each is a function of its arguments and the
  file system it sees, and it returns `Ok` or `Raised`. The model assumes a
  target does not change the file system itself.
- `ast.parse`, `repr`, `traceback.format_exception` and
  `datetime.utcnow().isoformat()` are uninterpreted functions. So is the
  round trip from a logged `Args`/`Kwargs` text back to values, because it
  depends on `repr`.
- The Mersenne Twister and the odds of each branch are not modelled:
  `random.random() < p` is a draw modulo 100 compared with `100 * p`.
  - No probabilistic claim is made, for example that both branches appear
    within 200 iterations.
  - `Random.RandomStringOnto` and `Random.RandIntOnto` state only that every
    outcome is reachable.
- `print` (lines 77, 82, 204), `sys.path` setup and the imports (lines
  11-17), the log path constant (line 20) and the `__main__` entry point
  (lines 207-208) are left out. The log is a `CrashLog` object instead of a
  file at a fixed path.
- Only one failure of file I/O is modelled in the generators: `mkdtemp`
  running out of unused names. Errors from `open` or `write` are not
  modelled.
  - For the log, the model covers opening failing (`CrashLog.failure`), but
    not a failure midway through the eight writes.
  - The `utf-8` encoding is not modelled: text is a sequence of characters.
- `shutil.rmtree(..., ignore_errors=True)` always removes the whole tree in
  the model. A tree that can be only partly removed is not modelled.
- Exceptions outside `Exception` (`KeyboardInterrupt`, `SystemExit`) are not
  modelled. In Python they pass through `except Exception`.
- Driver.FuzzFunction: on a `MakingArgs` abort it states only that the
  directories that existed before the run are kept. It does not say which
  new directories stay behind; for one call of `args_getCSVData` that is
  stated by `Generators.CsvArgs`. In fuzz.py those directories are never
  removed, because the wrapper that would remove them is never reached.
- Main.MainFuzz: it states, for each run, that the run was faithful and
  that the log only grew. The exact log text of each run, with the target's
  display name in each block, is stated by `Main.FuzzTarget`; the
  concatenation of the five runs' blocks is not stated. On a generator's
  abort it states, like `Driver.FuzzFunction`, only that the directories
  that existed before are kept, not which new ones stay behind.
- Main.MainStep: it keeps only that the log grew, not the blocks the call
  appends, nor where a run stopped (`run.at`, the number of iterations, the
  raising last iteration); those are stated by `Main.FuzzTarget`, and
  `Main.MainStep` passes on only what the sequence of runs needs.
- Driver.Pass: it states that one pass is generated, run and logged faithfully, but not that the pass's call is `Generate` of the draws before it; that tie is stated one level down, by `Driver.Attempt`. Keeping `Generate` in the context of the loop-level proofs would put every generator's whole definition into each of those proofs.
- Driver.Step: like `Driver.Pass`, it ties the new iteration to `make_args()` by its shape and faithfulness only; which draws produced it is stated by `Driver.Attempt`.
- Driver.FuzzFunction: it states the iterations by shape only: each is faithful to its target's generator (`Faithful`), but the sequence of draw positions and names used from one iteration to the next, that is, the draws each `make_args()` call consumed, is not stated over the run.
- Main.FuzzTarget: like `Driver.FuzzFunction`, the iterations are stated by shape only, not as the outputs of `make_args()` on successive draws.
- Main.MainStep: the same; the run it makes is not tied to the draws its iterations consumed.
- Main.MainFuzz: the same; no run of the sequence states which draws its iterations consumed.
- Random.RandomAstTree, Generators.MakeArgs, Driver.Attempt, Driver.FuzzFunction and Main.MainFuzz: each requires `env.parse("").Some?`, that is, that the fallback `ast.parse("")` (fuzz.py:67) does not raise. In fuzz.py it always returns an empty module; the model's `parse` is uninterpreted, so the requirement is stated instead.
- The targets are assumed not to mutate their list arguments.
  `fuzz_function` logs `repr(args)` after the call (fuzz.py:78), and
  `getCSVData` receives the generator's `scripts` list itself
  (fuzz.py:186, :190), so a target that changed that list would have the
  changed list logged. The model logs the arguments as generated.
