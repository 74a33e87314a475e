/**
 * The crash log: `log_crash` opens `fuzz_crashes.log` for appending and
 * writes one self-delimited block per caught exception.  The block is
 * defined here as text, a parser recovers its fields, and the log is an
 * object whose content only ever grows.
 */
module Logging {
  import opened Calls
  import opened Text

  /** The width of the separator line. */
  const RuleWidth: nat := 80

  /** The separator every block starts with: eighty `=` characters. */
  function Rule(): string
  {
    seq(RuleWidth, j => '=')
  }

  /** The separator is Python's `"=" * 80`, so it holds no newline. */
  lemma RuleShape()
    ensures Rule() == Repeat("=", RuleWidth)
    ensures '\n' !in Rule()
  {
    forall i | 0 <= i < RuleWidth
      ensures Rule()[i] == Repeat("=", RuleWidth)[i]
    {
      RepeatCharAt('=', RuleWidth, i);
    }
  }

  /** The lines `ls`, each followed by a newline. */
  function Lines(ls: seq<string>): string
  {
    if ls == [] then "" else Lines(ls[..|ls| - 1]) + ls[|ls| - 1] + "\n"
  }

  /**
   * The text `log_crash` appends for one exception under a separator line
   * `rule`: the separator, the time stamp followed by `Z`, the function
   * name, the `repr` of the positional and of the keyword arguments,
   * `Exception:`, the formatted traceback, and a closing blank line.
   */
  function BlockUnder(rule: string, time: string, name: string, args: string, kwargs: string, exc: string): string
  {
    Lines([rule, "Time: " + time + "Z", "Function: " + name, "Args: " + args, "Kwargs: " + kwargs, "Exception:", exc, ""])
  }

  /** The block line by line, as one text. */
  lemma BlockUnderAsWritten(rule: string, time: string, name: string, args: string, kwargs: string, exc: string)
    ensures BlockUnder(rule, time, name, args, kwargs, exc) ==
      rule + "\n"
      + ("Time: " + time + "Z\n")
      + ("Function: " + name + "\n")
      + ("Args: " + args + "\n")
      + ("Kwargs: " + kwargs + "\n")
      + "Exception:\n"
      + exc
      + "\n\n"
  {
    var l1, l2, l3, l4 := "Time: " + time + "Z", "Function: " + name, "Args: " + args, "Kwargs: " + kwargs;
    var ls := [rule, l1, l2, l3, l4, "Exception:", exc, ""];
    forall n | 0 < n <= |ls|
      ensures Lines(ls[..n]) == Lines(ls[..n - 1]) + ls[n - 1] + "\n"
    {
      assert ls[..n][..n - 1] == ls[..n - 1];
    }
    assert ls[..0] == [] && ls[..|ls|] == ls;
    assert Lines(ls[..1]) == rule + "\n";
    assert Lines(ls[..2]) == rule + "\n" + ("Time: " + time + "Z\n");
    assert Lines(ls[..3]) == rule + "\n" + ("Time: " + time + "Z\n") + ("Function: " + name + "\n");
    assert Lines(ls[..4]) == rule + "\n" + ("Time: " + time + "Z\n") + ("Function: " + name + "\n")
      + ("Args: " + args + "\n");
    assert Lines(ls[..5]) == rule + "\n" + ("Time: " + time + "Z\n") + ("Function: " + name + "\n")
      + ("Args: " + args + "\n") + ("Kwargs: " + kwargs + "\n");
    assert Lines(ls[..6]) == rule + "\n" + ("Time: " + time + "Z\n") + ("Function: " + name + "\n")
      + ("Args: " + args + "\n") + ("Kwargs: " + kwargs + "\n") + "Exception:\n";
    assert Lines(ls[..7]) == rule + "\n" + ("Time: " + time + "Z\n") + ("Function: " + name + "\n")
      + ("Args: " + args + "\n") + ("Kwargs: " + kwargs + "\n") + "Exception:\n" + exc + "\n";
  }

  /** The block `log_crash` appends, under the eighty-`=` separator. */
  function CrashBlock(time: string, name: string, args: string, kwargs: string, exc: string): string
  {
    BlockUnder(Rule(), time, name, args, kwargs, exc)
  }

  /** A crash block opens with the separator line and closes with a blank line. */
  lemma CrashBlockFrame(time: string, name: string, args: string, kwargs: string, exc: string)
    ensures Rule() + "\n" <= CrashBlock(time, name, args, kwargs, exc)
    ensures var b := CrashBlock(time, name, args, kwargs, exc); |b| >= 2 && b[|b| - 2..] == "\n\n"
  {
    BlockUnderAsWritten(Rule(), time, name, args, kwargs, exc);
  }

  /** The eight writes of `log_crash`, one after another, append one block. */
  lemma WritesMakeBlock(before: string, rule: string, time: string, name: string, args: string, kwargs: string, exc: string)
    ensures before + rule + "\n" + "Time: " + time + "Z\n" + "Function: " + name + "\n" + "Args: " + args + "\n"
      + "Kwargs: " + kwargs + "\n" + "Exception:\n" + exc + "\n\n"
      == before + BlockUnder(rule, time, name, args, kwargs, exc)
  {
    BlockUnderAsWritten(rule, time, name, args, kwargs, exc);
  }

  /** The fields a block records. */
  datatype BlockFields = BlockFields(time: string, name: string, args: string, kwargs: string, exc: string)

  /** The first line of `s` without its newline, and what follows it. */
  function NextLine(s: string): Option<(string, string)>
  {
    if s == [] then None
    else if s[0] == '\n' then Some(([], s[1..]))
    else match NextLine(s[1..])
      case None => None
      case Some((line, rest)) => Some(([s[0]] + line, rest))
  }

  /** A line that starts with `tag`, returned without it. */
  function Field(s: string, tag: string): Option<(string, string)>
  {
    match NextLine(s)
    case None => None
    case Some((line, rest)) =>
      if |tag| <= |line| && line[..|tag|] == tag then Some((line[|tag|..], rest)) else None
  }

  /** Reads one block that starts with the separator `rule` back into its fields; `None` when the text is not such a block. */
  function ParseUnder(rule: string, b: string): Option<BlockFields>
  {
    match NextLine(b)
    case None => None
    case Some((first, r0)) =>
      if first != rule then None else
      match Field(r0, "Time: ")
      case None => None
      case Some((stamp, r1)) =>
        if stamp == [] || stamp[|stamp| - 1] != 'Z' then None else ParseNamed(stamp[..|stamp| - 1], r1)
  }

  /** The lines after the time stamp: name, arguments, keyword arguments. */
  function ParseNamed(time: string, r1: string): Option<BlockFields>
  {
    match Field(r1, "Function: ")
    case None => None
    case Some((name, r2)) =>
      match Field(r2, "Args: ")
      case None => None
      case Some((args, r3)) =>
        match Field(r3, "Kwargs: ")
        case None => None
        case Some((kwargs, r4)) => ParseException(time, name, args, kwargs, r4)
  }

  /** The `Exception:` header, then the traceback up to the closing blank line. */
  function ParseException(time: string, name: string, args: string, kwargs: string, r4: string): Option<BlockFields>
  {
    match NextLine(r4)
    case None => None
    case Some((header, r5)) =>
      if header != "Exception:" || |r5| < 2 || r5[|r5| - 2..] != "\n\n" then None
      else Some(BlockFields(time, name, args, kwargs, r5[..|r5| - 2]))
  }

  /** Reads one crash block back into its fields. */
  function ParseBlock(b: string): Option<BlockFields>
  {
    ParseUnder(Rule(), b)
  }

  lemma {:induction false} NextLineOf(line: string, rest: string)
    requires '\n' !in line
    ensures NextLine(line + "\n" + rest) == Some((line, rest))
    decreases |line|
  {
    var s := line + "\n" + rest;
    if line != [] {
      assert s[0] == line[0] && s[1..] == line[1..] + "\n" + rest;
      NextLineOf(line[1..], rest);
      assert [line[0]] + line[1..] == line;
    } else {
      assert s == "\n" + rest;
    }
  }

  lemma FieldOf(tag: string, value: string, rest: string)
    requires '\n' !in tag && '\n' !in value
    ensures Field(tag + value + "\n" + rest, tag) == Some((value, rest))
  {
    var line := tag + value;
    assert tag + value + "\n" + rest == line + "\n" + rest;
    NextLineOf(line, rest);
    assert line[..|tag|] == tag && line[|tag|..] == value;
  }

  lemma ParseExceptionOf(time: string, name: string, args: string, kwargs: string, exc: string)
    ensures ParseException(time, name, args, kwargs, "Exception:" + "\n" + (exc + "\n\n")) == Some(BlockFields(time, name, args, kwargs, exc))
  {
    var r5 := exc + "\n\n";
    NextLineOf("Exception:", r5);
    assert r5[|r5| - 2..] == "\n\n" && r5[..|r5| - 2] == exc;
  }

  lemma ParseNamedOf(time: string, name: string, args: string, kwargs: string, r4: string)
    requires '\n' !in name && '\n' !in args && '\n' !in kwargs
    ensures ParseNamed(time, "Function: " + name + "\n" + ("Args: " + args + "\n" + ("Kwargs: " + kwargs + "\n" + r4)))
      == ParseException(time, name, args, kwargs, r4)
  {
    var r3 := "Kwargs: " + kwargs + "\n" + r4;
    var r2 := "Args: " + args + "\n" + r3;
    FieldOf("Function: ", name, r2);
    FieldOf("Args: ", args, r3);
    FieldOf("Kwargs: ", kwargs, r4);
  }

  lemma ParseStampOf(rule: string, time: string, r1: string)
    requires '\n' !in rule && '\n' !in time
    ensures ParseUnder(rule, rule + "\n" + ("Time: " + (time + "Z") + "\n" + r1)) == ParseNamed(time, r1)
  {
    var r0 := "Time: " + (time + "Z") + "\n" + r1;
    NextLineOf(rule, r0);
    FieldOf("Time: ", time + "Z", r1);
    var stamp := time + "Z";
    assert stamp[|stamp| - 1] == 'Z' && stamp[..|stamp| - 1] == time;
  }

  /** The round trip for any one-line separator. */
  lemma ParseUnderBlock(rule: string, time: string, name: string, args: string, kwargs: string, exc: string)
    requires '\n' !in rule && '\n' !in time && '\n' !in name && '\n' !in args && '\n' !in kwargs
    ensures ParseUnder(rule, BlockUnder(rule, time, name, args, kwargs, exc)) == Some(BlockFields(time, name, args, kwargs, exc))
  {
    var r4 := "Exception:" + "\n" + (exc + "\n\n");
    var r1 := "Function: " + name + "\n" + ("Args: " + args + "\n" + ("Kwargs: " + kwargs + "\n" + r4));
    BlockUnderAsWritten(rule, time, name, args, kwargs, exc);
    assert BlockUnder(rule, time, name, args, kwargs, exc) == rule + "\n" + ("Time: " + (time + "Z") + "\n" + r1);
    ParseStampOf(rule, time, r1);
    ParseNamedOf(time, name, args, kwargs, r4);
    ParseExceptionOf(time, name, args, kwargs, exc);
  }

  /**
   * A crash block reads back as the fields it was written from, provided
   * the one-line fields hold no newline (Python's `repr` escapes newlines,
   * an ISO time stamp has none); the traceback text may hold anything.
   */
  lemma ParseCrashBlock(time: string, name: string, args: string, kwargs: string, exc: string)
    requires '\n' !in time && '\n' !in name && '\n' !in args && '\n' !in kwargs
    ensures ParseBlock(CrashBlock(time, name, args, kwargs, exc)) == Some(BlockFields(time, name, args, kwargs, exc))
  {
    RuleShape();
    ParseUnderBlock(Rule(), time, name, args, kwargs, exc);
  }

  /** The block written from the fields `b`. */
  function BlockOf(b: BlockFields): string
  {
    CrashBlock(b.time, b.name, b.args, b.kwargs, b.exc)
  }

  /** The text of a log that holds the blocks `bs`, oldest first. */
  function Render(bs: seq<BlockFields>): string
    decreases |bs|, 1
  {
    if bs == [] then "" else RenderLast(bs)
  }

  /** The text of a log holding at least one block: the blocks before the last, then the last one. */
  function RenderLast(bs: seq<BlockFields>): string
    requires bs != []
    decreases |bs|, 0
  {
    Render(bs[..|bs| - 1]) + BlockOf(bs[|bs| - 1])
  }

  /** Appending one block to the log appends its text. */
  lemma RenderSnoc(bs: seq<BlockFields>, b: BlockFields)
    ensures Render(bs + [b]) == Render(bs) + BlockOf(b)
  {
    assert Render(bs + [b]) == RenderLast(bs + [b]);
    assert (bs + [b])[..|bs|] == bs;
  }

  /** A log that held `initial` and then the blocks `bs` holds, after one more block, `initial` and then `bs + [b]`. */
  lemma AppendBlock(initial: string, bs: seq<BlockFields>, b: BlockFields, before: string, after: string)
    requires before == initial + Render(bs)
    requires after == before + BlockOf(b)
    ensures after == initial + Render(bs + [b])
  {
    RenderSnoc(bs, b);
  }

  /** The text of two runs of blocks is the text of the first followed by that of the second. */
  lemma {:induction false} RenderSplit(a: seq<BlockFields>, b: seq<BlockFields>)
    ensures Render(a + b) == Render(a) + Render(b)
    decreases |b|
  {
    if b == [] {
      assert a + b == a;
    } else {
      var b' := b[..|b| - 1];
      assert a + b == (a + b') + [b[|b| - 1]];
      RenderSplit(a, b');
      RenderSnoc(a + b', b[|b| - 1]);
      RenderSnoc(b', b[|b| - 1]);
    }
  }

  /** `fuzz_crashes.log`: append-only text. */
  class CrashLog {
    var content: string
    /** How many times `log_crash` has tried to open the log. */
    var attempts: nat
    /** The value of `datetime.utcnow().isoformat()` at each attempt. */
    const clock: nat -> string
    /** Whether opening the log raises at each attempt. */
    const failure: nat -> Option<Fault>

    constructor (content: string, clock: nat -> string, failure: nat -> Option<Fault>)
      ensures this.content == content && attempts == 0
      ensures this.clock == clock && this.failure == failure
    {
      this.content := content;
      this.clock := clock;
      this.failure := failure;
      attempts := 0;
    }

    /**
     * `log_crash(func_name, args, kwargs, exc)`: appends one block, or
     * raises, writing nothing, when the log cannot be opened.  What was
     * there before is kept as it was.
     */
    method LogCrash(name: string, args: seq<Value>, aux: Aux, exc: Fault, env: Env) returns (err: Option<Fault>)
      modifies this
      ensures attempts == old(attempts) + 1
      ensures err == failure(old(attempts))
      ensures content == old(content) + if err.None? then
        CrashBlock(clock(old(attempts)), name, env.reprArgs(args), env.reprKwargs(aux), env.formatException(exc))
        else ""
    {
      err := failure(attempts);
      var now := clock(attempts);
      WritesMakeBlock(content, Rule(), now, name, env.reprArgs(args), env.reprKwargs(aux), env.formatException(exc));
      attempts := attempts + 1;
      if err.Some? {
        return;
      }
      content := content + Rule() + "\n";
      content := content + "Time: " + now + "Z\n";
      content := content + "Function: " + name + "\n";
      content := content + "Args: " + env.reprArgs(args) + "\n";
      content := content + "Kwargs: " + env.reprKwargs(aux) + "\n";
      content := content + "Exception:\n";
      content := content + env.formatException(exc);
      content := content + "\n\n";
    }
  }
}
