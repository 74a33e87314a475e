/**
 * Randomness as an explicit input.  Python's global `random` state is a
 * stream of draws `draw(0), draw(1), ...`; every `randint`, `choice` and
 * `random()` consumes exactly one draw and maps it into its range.  The
 * generators that touch no file (`random_string`, `random_ast_tree` and the
 * arguments of `checkLoggingPerData`) are functions of the stream and the
 * position they start at.
 */
module Random {
  import opened Calls
  import opened Text

  /** A value drawn from the stream, and the position of the next unused draw. */
  datatype Drawn<T> = Drawn(value: T, next: nat)

  /** `random.randint(lo, hi)`, both ends included. */
  function RandIntAt(draw: nat -> nat, pos: nat, lo: int, hi: int): (r: int)
    requires lo <= hi
    ensures lo <= r <= hi
  {
    lo + draw(pos) % (hi - lo + 1)
  }

  /** `random.random() < pct / 100`, at a resolution of one percent. */
  predicate ChanceAt(draw: nat -> nat, pos: nat, pct: nat)
  {
    draw(pos) % 100 < pct
  }

  /**
   * `random.random() < 0` never holds and `random.random() < 1` always
   * does; any chance in between can come out either way.
   */
  lemma ChanceOdds(pos: nat, pct: nat)
    ensures pct == 0 ==> forall draw: nat -> nat :: !ChanceAt(draw, pos, pct)
    ensures pct >= 100 ==> forall draw: nat -> nat :: ChanceAt(draw, pos, pct)
    ensures 0 < pct ==> exists draw: nat -> nat :: ChanceAt(draw, pos, pct)
    ensures pct < 100 ==> exists draw: nat -> nat :: !ChanceAt(draw, pos, pct)
  {
    var low, high := (k: nat) => 0, (k: nat) => 99;
    assert ChanceAt(low, pos, pct) <==> 0 < pct;
    assert ChanceAt(high, pos, pct) <==> 99 < pct;
  }

  /** `random.choice(xs)`. */
  function ChoiceAt<T>(draw: nat -> nat, pos: nat, xs: seq<T>): (x: T)
    requires |xs| > 0
    ensures x in xs
  {
    xs[draw(pos) % |xs|]
  }

  /** Every value of the range is the outcome of some draw. */
  lemma RandIntOnto(pos: nat, lo: int, hi: int, v: int)
    requires lo <= v <= hi
    ensures exists draw: nat -> nat :: RandIntAt(draw, pos, lo, hi) == v
  {
    var offset: nat := v - lo;
    var draw := (k: nat) => offset;
    assert RandIntAt(draw, pos, lo, hi) == v;
  }

  lemma SmallMod(a: nat, m: nat)
    requires a < m
    ensures a % m == a
  {
  }

  /** `n` characters chosen from the alphabet by the draws starting at `pos`. */
  function Chars(draw: nat -> nat, pos: nat, n: nat): (s: string)
    ensures |s| == n && IsName(s)
    decreases n
  {
    if n == 0 then "" else [LetterAt(draw(pos) % 64)] + Chars(draw, pos + 1, n - 1)
  }

  /**
   * `random_string(max_len)`: a length in `0..max_len`, then that many
   * characters from the alphabet.
   */
  function RandomString(draw: nat -> nat, pos: nat, maxLen: nat): (r: Drawn<string>)
    ensures |r.value| <= maxLen && IsName(r.value)
    ensures r.next == pos + 1 + |r.value|
    ensures maxLen == 0 ==> r.value == ""
  {
    var n := RandIntAt(draw, pos, 0, maxLen);
    Drawn(Chars(draw, pos + 1, n), pos + 1 + n)
  }

  lemma {:induction false} CharsOnto(draw: nat -> nat, pos: nat, s: string)
    requires forall j :: 0 <= j < |s| ==> LetterAt(draw(pos + j) % 64) == s[j]
    ensures Chars(draw, pos, |s|) == s
    decreases |s|
  {
    if s != "" {
      forall j | 0 <= j < |s| - 1
        ensures LetterAt(draw(pos + 1 + j) % 64) == s[1..][j]
      {
        assert pos + 1 + j == pos + (j + 1);
      }
      CharsOnto(draw, pos + 1, s[1..]);
      assert LetterAt(draw(pos + 0) % 64) == s[0];
    }
  }

  /** The draws under which `random_string` starting at `pos` spells out `s`. */
  function SpellingDraw(pos: nat, s: string, k: nat): nat
  {
    if k == pos then |s|
    else if pos < k <= pos + |s| && IsNameChar(s[k - pos - 1]) then LetterIndex(s[k - pos - 1])
    else 0
  }

  lemma SpelledOut(draw: nat -> nat, pos: nat, maxLen: nat, s: string)
    requires |s| <= maxLen && IsName(s)
    requires draw(pos) == |s|
    requires forall j :: 0 <= j < |s| ==> LetterAt(draw(pos + 1 + j) % 64) == s[j]
    ensures RandomString(draw, pos, maxLen).value == s
  {
    SmallMod(|s|, maxLen + 1);
    assert RandIntAt(draw, pos, 0, maxLen) == |s|;
    CharsOnto(draw, pos + 1, s);
  }

  /**
   * `random_string` can return every name of at most `max_len` characters,
   * the empty string and a string of exactly `max_len` characters included.
   */
  lemma RandomStringOnto(pos: nat, maxLen: nat, s: string)
    requires |s| <= maxLen && IsName(s)
    ensures exists draw: nat -> nat :: RandomString(draw, pos, maxLen).value == s
  {
    var draw: nat -> nat := k => SpellingDraw(pos, s, k);
    forall j | 0 <= j < |s|
      ensures LetterAt(draw(pos + 1 + j) % 64) == s[j]
    {
      assert IsNameChar(s[j]);
      assert draw(pos + 1 + j) == LetterIndex(s[j]);
    }
    SpelledOut(draw, pos, maxLen, s);
  }

  /** The statement `random_ast_tree` repeats. */
  const Assignment := "x = 1\n"

  /**
   * The source text `random_ast_tree` parses: with 70% chance one to five
   * copies of `x = 1`, otherwise a random string of at most 40 characters.
   */
  function AstSource(draw: nat -> nat, pos: nat): (r: Drawn<string>)
    ensures r.next > pos
    ensures (exists k :: 1 <= k <= 5 && r.value == Repeat(Assignment, k))
         || (|r.value| <= 40 && IsName(r.value))
  {
    if ChanceAt(draw, pos, 70) then
      var k := RandIntAt(draw, pos + 1, 1, 5);
      var r := Drawn(Repeat(Assignment, k), pos + 2);
      assert exists j :: 1 <= j <= 5 && r.value == Repeat(Assignment, j) by {
        assert 1 <= k <= 5 && r.value == Repeat(Assignment, k);
      }
      r
    else
      RandomString(draw, pos + 1, 40)
  }

  /**
   * `random_ast_tree()`: the parse of the drawn source, or, when that does
   * not parse, the parse of the empty module.  A parse failure never
   * escapes, given that the empty module parses.
   */
  function RandomAstTree(draw: nat -> nat, pos: nat, parse: string -> Option<Tree>): (r: Drawn<Tree>)
    requires parse("").Some?
    ensures r.next == AstSource(draw, pos).next
    ensures var src := AstSource(draw, pos).value;
      parse(src) == Some(r.value) || (parse(src).None? && parse("") == Some(r.value))
  {
    var src := AstSource(draw, pos);
    match parse(src.value)
    case Some(tree) => Drawn(tree, src.next)
    case None => Drawn(parse("").value, src.next)
  }

  /** The names `args_checkLoggingPerData` chooses among, apart from a random one. */
  const TrackedNames: seq<string> := ["data", "model"]

  /**
   * `args_checkLoggingPerData()`: a random tree and a name that is "data",
   * "model" or a random string of at most 10 characters; no metadata.
   */
  function CheckLoggingArgs(draw: nat -> nat, pos: nat, parse: string -> Option<Tree>): (r: Drawn<Call>)
    requires parse("").Some?
    ensures r.next > pos
    ensures r.value.aux == NoAux && |r.value.args| == 2
    ensures r.value.args[0] == TreeArg(RandomAstTree(draw, pos, parse).value)
    ensures r.value.args[1].Str?
    ensures var name := r.value.args[1].s;
      name in TrackedNames || (|name| <= 10 && IsName(name))
  {
    var tree := RandomAstTree(draw, pos, parse);
    var alt := RandomString(draw, tree.next, 10);
    var name := ChoiceAt(draw, alt.next, TrackedNames + [alt.value]);
    Drawn(Call([TreeArg(tree.value), Str(name)], NoAux), alt.next + 1)
  }

  /** The global random state: a fixed stream and the position reached in it. */
  class Rng {
    const draw: nat -> nat
    var pos: nat

    constructor (draw: nat -> nat)
      ensures this.draw == draw && pos == 0
    {
      this.draw := draw;
      pos := 0;
    }

    /** `random.randint(lo, hi)`. */
    method RandInt(lo: int, hi: int) returns (r: int)
      requires lo <= hi
      modifies this
      ensures r == RandIntAt(draw, old(pos), lo, hi) && lo <= r <= hi
      ensures pos == old(pos) + 1
    {
      r := RandIntAt(draw, pos, lo, hi);
      pos := pos + 1;
    }

    /** `random.random() < pct / 100`. */
    method Chance(pct: nat) returns (b: bool)
      modifies this
      ensures b == ChanceAt(draw, old(pos), pct)
      ensures pos == old(pos) + 1
    {
      b := ChanceAt(draw, pos, pct);
      pos := pos + 1;
    }

    /** `random.choice(xs)`; every list the harness chooses from is non-empty. */
    method Choice<T>(xs: seq<T>) returns (x: T)
      requires |xs| > 0
      modifies this
      ensures x == ChoiceAt(draw, old(pos), xs) && x in xs
      ensures pos == old(pos) + 1
    {
      x := ChoiceAt(draw, pos, xs);
      pos := pos + 1;
    }

    /** `random_string(max_len)`, consuming its draws. */
    method String(maxLen: nat) returns (s: string)
      modifies this
      ensures s == RandomString(draw, old(pos), maxLen).value
      ensures pos == RandomString(draw, old(pos), maxLen).next
      ensures |s| <= maxLen && IsName(s)
    {
      var r := RandomString(draw, pos, maxLen);
      s, pos := r.value, r.next;
    }

    /** `random_ast_tree()`, consuming its draws. */
    method AstTree(parse: string -> Option<Tree>) returns (t: Tree)
      requires parse("").Some?
      modifies this
      ensures t == RandomAstTree(draw, old(pos), parse).value
      ensures pos == RandomAstTree(draw, old(pos), parse).next
    {
      var r := RandomAstTree(draw, pos, parse);
      t, pos := r.value, r.next;
    }
  }
}
