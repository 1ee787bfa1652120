// Short codes: the 62-character alphabet, how one code is drawn from
// `Math.random()` values, and which of several draws a collision check keeps.
module ShortCode {
  import opened Web

  /** `chars` in both generators: A-Z, then a-z, then 0-9 (see AlphabetSpelledOut). */
  const Alphabet := Span('A', 26) + Span('a', 26) + Span('0', 10)

  /** Default code lengths of the two workers. */
  const ApiCodeLength := 6
  const BotCodeLength := 7

  /** A value of `Math.random()`: a number in [0, 1). */
  type Random = x: real | 0.0 <= x < 1.0

  predicate IsAlphanumeric(c: char)
  {
    'A' <= c <= 'Z' || 'a' <= c <= 'z' || '0' <= c <= '9'
  }

  /** Every character of `s` is one of the alphabet's. */
  predicate IsCode(s: string)
  {
    forall i :: 0 <= i < |s| ==> s[i] in Alphabet
  }

  /** The `n` consecutive characters from `first` on. */
  function Span(first: char, n: nat): (s: string)
    requires first as int + n <= 0xD800
    ensures |s| == n && forall i :: 0 <= i < n ==> s[i] as int == first as int + i
  {
    seq(n, i requires 0 <= i < n => (first as int + i) as char)
  }

  /** The alphabet, character by character. */
  lemma AlphabetSpelledOut()
    ensures Alphabet == "ABCDEFGHIJKLMNOPQRSTUVWXYZabcdefghijklmnopqrstuvwxyz0123456789"
  {
    UpperSpelledOut();
    LowerSpelledOut();
    DigitsSpelledOut();
  }

  lemma UpperSpelledOut()
    ensures Span('A', 26) == "ABCDEFGHIJKLMNOPQRSTUVWXYZ"
  {
  }

  lemma LowerSpelledOut()
    ensures Span('a', 26) == "abcdefghijklmnopqrstuvwxyz"
  {
  }

  lemma DigitsSpelledOut()
    ensures Span('0', 10) == "0123456789"
  {
  }

  /** The alphabet has 62 distinct characters, exactly A-Z, a-z and 0-9. */
  lemma AlphabetIsAlphanumeric()
    ensures |Alphabet| == 62
    ensures forall i, j :: 0 <= i < j < |Alphabet| ==> Alphabet[i] != Alphabet[j]
    ensures forall c :: c in Alphabet <==> IsAlphanumeric(c)
  {
    var s := Alphabet;
    assert forall i :: 0 <= i < 26 ==> s[i] as int == 'A' as int + i;
    assert forall i :: 26 <= i < 52 ==> s[i] as int == 'a' as int + i - 26;
    assert forall i :: 52 <= i < 62 ==> s[i] as int == '0' as int + i - 52;
    forall c | IsAlphanumeric(c) ensures c in s {
      if 'A' <= c <= 'Z' {
        assert s[c as int - 'A' as int] == c;
      } else if 'a' <= c <= 'z' {
        assert s[26 + c as int - 'a' as int] == c;
      } else {
        assert s[52 + c as int - '0' as int] == c;
      }
    }
  }

  /** `chars.charAt(Math.floor(x * chars.length))`. */
  function CharFor(x: Random): (c: char)
    ensures c in Alphabet
  {
    var k := (x * (|Alphabet| as real)).Floor;
    Alphabet[k]
  }

  /** The code that one character per value of `rolls` spells, in order. */
  function CodeOf(rolls: seq<Random>): (code: string)
    ensures |code| == |rolls| && IsCode(code)
  {
    if rolls == [] then ""
    else CodeOf(rolls[..|rolls| - 1]) + [CharFor(rolls[|rolls| - 1])]
  }

  /** Position `i` of a code depends on the `i`-th value alone. */
  lemma {:induction false} CodeOfAt(rolls: seq<Random>, i: nat)
    requires i < |rolls|
    ensures CodeOf(rolls)[i] == CharFor(rolls[i])
  {
    if i < |rolls| - 1 {
      CodeOfAt(rolls[..|rolls| - 1], i);
    }
  }

  /** The index of `c` in `s`. */
  function IndexIn(c: char, s: string): (k: nat)
    requires c in s
    ensures k < |s| && s[k] == c
  {
    if s[0] == c then 0 else 1 + IndexIn(c, s[1..])
  }

  /** A random value that draws `c`. */
  function RollFor(c: char): (x: Random)
    requires c in Alphabet
    ensures CharFor(x) == c
  {
    AlphabetIsAlphanumeric();
    var k := IndexIn(c, Alphabet);
    var x: Random := (k as real) / 62.0;
    assert (x * (|Alphabet| as real)).Floor == k;
    x
  }

  /** Random values that draw `code`. */
  function RollsFor(code: string): (rolls: seq<Random>)
    requires IsCode(code)
    ensures |rolls| == |code|
  {
    if code == "" then [] else RollsFor(code[..|code| - 1]) + [RollFor(code[|code| - 1])]
  }

  /** Every code over the alphabet can be drawn: no code is out of reach of
      the generator, whatever its length. */
  lemma {:induction false} CodeReachable(code: string)
    requires IsCode(code)
    ensures CodeOf(RollsFor(code)) == code
  {
    if code != "" {
      var n := |code| - 1;
      var front := RollsFor(code[..n]);
      var rolls := front + [RollFor(code[n])];
      assert RollsFor(code) == rolls;
      CodeReachable(code[..n]);
      assert rolls[..n] == front;
      calc {
        CodeOf(rolls);
        CodeOf(front) + [CharFor(RollFor(code[n]))];
        code[..n] + [code[n]];
      }
      assert code[..n] + [code[n]] == code;
    }
  }

  /** `generateShortCode(length)`: one alphabet character per random value. */
  method GenerateShortCode(length: nat, rolls: seq<Random>) returns (code: string)
    requires |rolls| == length
    ensures code == CodeOf(rolls)
    ensures |code| == length && IsCode(code)
  {
    code := "";
    for i := 0 to length
      invariant code == CodeOf(rolls[..i])
    {
      assert rolls[..i + 1][..i] == rolls[..i];
      code := code + [CharFor(rolls[i])];
    }
    assert rolls[..length] == rolls;
  }

  /** The first of the draws `from` .. `limit - 1` whose code is not in
      `taken`: the draw a generate-and-check loop over these draws keeps. */
  function FirstFree(taken: set<string>, draws: seq<seq<Random>>, from: nat, limit: nat): (r: Option<nat>)
    requires limit <= |draws|
    ensures r.Some? ==> from <= r.value < limit && CodeOf(draws[r.value]) !in taken
    ensures r.Some? ==> forall j :: from <= j < r.value ==> CodeOf(draws[j]) in taken
    ensures r.None? ==> forall j :: from <= j < limit ==> CodeOf(draws[j]) in taken
    decreases limit - from
  {
    if from >= limit then None
    else if CodeOf(draws[from]) !in taken then Some(from)
    else FirstFree(taken, draws, from + 1, limit)
  }

  /** The draw a loop keeps is determined: a free draw with only taken ones
      before it is the first free one. */
  lemma FirstFreeIs(taken: set<string>, draws: seq<seq<Random>>, limit: nat, k: nat)
    requires k < limit <= |draws|
    requires CodeOf(draws[k]) !in taken
    requires forall j :: 0 <= j < k ==> CodeOf(draws[j]) in taken
    ensures FirstFree(taken, draws, 0, limit) == Some(k)
  {
  }

  /** When every draw below `limit` is taken, no draw is kept. */
  lemma NoneFree(taken: set<string>, draws: seq<seq<Random>>, limit: nat)
    requires limit <= |draws|
    requires forall j :: 0 <= j < limit ==> CodeOf(draws[j]) in taken
    ensures FirstFree(taken, draws, 0, limit) == None
  {
  }

  /** A code contains neither '/' nor '.', so it is one path segment and
      never looks like a file name to the routers. */
  lemma CodeHasNoSeparators(code: string)
    requires IsCode(code)
    ensures '/' !in code && '.' !in code
  {
    AlphabetIsAlphanumeric();
  }
}
