/** The alias generator of the chat server: two shuffled word lists walked so that every pair comes up once per round. */
module Alias {

  const ARRAY_LEN: nat := 30

  /** Indices used by call number `n`, counted from zero. */
  function Indices(n: nat): (r: (nat, nat))
    ensures r.0 < ARRAY_LEN && r.1 < ARRAY_LEN
  {
    (n % ARRAY_LEN, (n + n / ARRAY_LEN) % ARRAY_LEN)
  }

  lemma Residue900(k: nat, r: nat)
    requires r < 900
    ensures (900 * k + r) % 900 == r
  {
  }

  lemma Residue30(k: nat, r: nat)
    ensures (30 * k + r) % 30 == r % 30
  {
  }

  /** Call `n` is row `n / 30 % 30`, column `n % 30` of its round, and the second index is their sum. */
  lemma Round(n: nat)
    ensures n % 900 == 30 * (n / 30 % 30) + n % 30
    ensures Indices(n).1 == (n % 30 + n / 30 % 30) % 30
  {
    var q, a := n / 30, n % 30;
    var k, p := q / 30, q % 30;
    Residue900(k, 30 * p + a);
    Residue30(q + k, a + p);
  }

  /** The walk: both indices go on by one, the first starts over after 30 calls, and then the second is shifted by one. */
  lemma Walk(n: nat)
    ensures Indices(0) == (0, 0)
    ensures Indices(n).0 < 29 ==> Indices(n + 1) == (Indices(n).0 + 1, (Indices(n).1 + 1) % 30)
    ensures Indices(n + 30) == (Indices(n).0, (Indices(n).1 + 1) % 30)
  {
    var q, a := n / 30, n % 30;
    assert (n + 30) / 30 == q + 1 && (n + 30) % 30 == a;
    Next30(n + q);
    if a < 29 {
      assert (n + 1) / 30 == q && (n + 1) % 30 == a + 1;
    }
  }

  lemma Next30(k: nat)
    ensures (k + 1) % 30 == (k % 30 + 1) % 30 && (k + 31) % 30 == (k % 30 + 1) % 30
  {
  }

  lemma SameSum(a: nat, p: nat, q: nat)
    requires a < 30 && p < 30 && q < 30 && (a + p) % 30 == (a + q) % 30
    ensures p == q
  {
  }

  /** Two calls use the same pair of words exactly when their numbers agree modulo ARRAY_LEN squared. */
  lemma SamePairIffCongruent(n: nat, m: nat)
    ensures Indices(n) == Indices(m) <==> n % (ARRAY_LEN * ARRAY_LEN) == m % (ARRAY_LEN * ARRAY_LEN)
  {
    Round(n);
    Round(m);
    if Indices(n) == Indices(m) {
      SameSum(n % 30, n / 30 % 30, m / 30 % 30);
    }
  }

  /** The call of the first round that uses words `i` and `j`. */
  lemma FirstRound(i: nat, j: nat) returns (n: nat)
    requires i < 30 && j < 30
    ensures n < 900 && Indices(n) == (i, j)
  {
    var row := if i <= j then j - i else j + 30 - i;
    n := 30 * row + i;
    assert n / 30 == row && n % 30 == i;
    Residue30(row, i + row);
    Residue30(if i <= j then 0 else 1, j);
  }

  /** Every combination comes up in every round of 900 calls. */
  lemma EveryPairComesUp(start: nat, i: nat, j: nat) returns (n: nat)
    requires i < ARRAY_LEN && j < ARRAY_LEN
    ensures start <= n < start + ARRAY_LEN * ARRAY_LEN && Indices(n) == (i, j)
  {
    var want := FirstRound(i, j);
    n := NextResidue(start, want);
    SamePairIffCongruent(n, want);
  }

  /** The first number from `start` on with this residue. */
  lemma NextResidue(start: nat, want: nat) returns (n: nat)
    requires want < 900
    ensures start <= n < start + 900 && n % 900 == want
  {
    var k := if start % 900 <= want then start / 900 else start / 900 + 1;
    n := 900 * k + want;
    Residue900(k, want);
  }

  predicate NoRepeats(words: seq<string>) {
    forall i, j :: 0 <= i < j < |words| ==> words[i] != words[j]
  }

  /** The shape of the word lists: not empty, lower case first, no blank inside. */
  predicate Word(w: string) {
    w != [] && 'a' <= w[0] <= 'z' && forall i :: 0 <= i < |w| ==> w[i] != ' '
  }

  predicate WordList(words: seq<string>) {
    |words| == ARRAY_LEN && NoRepeats(words) && forall i :: 0 <= i < |words| ==> Word(words[i])
  }

  /** `to_uppercase` on the lower-case ASCII letters the lists start with. */
  function Capitalize(w: string): string
    requires Word(w)
  {
    [(w[0] as int - 32) as char] + w[1..]
  }

  /** `c` is `w` with its first letter in upper case. */
  predicate Titled(w: string, c: string) {
    && |c| == |w| > 0 && c[1..] == w[1..]
    && 'A' <= c[0] <= 'Z' && c[0] as int - 'A' as int == w[0] as int - 'a' as int
  }

  lemma Capitalized(w: string)
    requires Word(w)
    ensures Titled(w, Capitalize(w))
  {
  }

  /** The adjective, a blank, the noun, each with its first letter in upper case. */
  predicate ReadsAs(alias: string, adjective: string, noun: string) {
    && |alias| == |adjective| + 1 + |noun| && alias[|adjective|] == ' '
    && Titled(adjective, alias[..|adjective|]) && Titled(noun, alias[|adjective| + 1..])
  }

  lemma AliasReads(adjective: string, noun: string)
    requires Word(adjective) && Word(noun)
    ensures ReadsAs(AliasOf(adjective, noun), adjective, noun)
  {
    var alias := AliasOf(adjective, noun);
    Capitalized(adjective);
    Capitalized(noun);
    assert alias[..|adjective|] == Capitalize(adjective) && alias[|adjective| + 1..] == Capitalize(noun);
  }

  function AliasOf(adjective: string, noun: string): string
    requires Word(adjective) && Word(noun)
  {
    Capitalize(adjective) + " " + Capitalize(noun)
  }

  lemma AliasInjective(a: string, n: string, b: string, m: string)
    requires Word(a) && Word(n) && Word(b) && Word(m)
    ensures AliasOf(a, n) == AliasOf(b, m) <==> a == b && n == m
  {
    if AliasOf(a, n) == AliasOf(b, m) {
      var l, r := AliasOf(a, n), AliasOf(b, m);
      assert l[|a|] == ' ' && r[|b|] == ' ';
      assert forall i :: 0 <= i < |a| ==> l[i] == Capitalize(a)[i] && l[i] != ' ';
      assert forall i :: 0 <= i < |b| ==> r[i] == Capitalize(b)[i] && r[i] != ' ';
      assert |a| == |b|;
      assert Capitalize(a) == l[..|a|] == r[..|a|] == Capitalize(b);
      assert Capitalize(n) == l[|a| + 1..] == r[|a| + 1..] == Capitalize(m);
      CapitalizeInjective(a, b);
      CapitalizeInjective(n, m);
    }
  }

  lemma CapitalizeInjective(a: string, b: string)
    requires Word(a) && Word(b) && Capitalize(a) == Capitalize(b)
    ensures a == b
  {
    assert a[1..] == Capitalize(a)[1..] == Capitalize(b)[1..] == b[1..];
    assert Capitalize(a)[0] == Capitalize(b)[0];
    assert a == [a[0]] + a[1..] && b == [b[0]] + b[1..];
  }

  /** The alias call number `n` returns. */
  function AliasAt(adjectives: seq<string>, nouns: seq<string>, n: nat): string
    requires WordList(adjectives) && WordList(nouns)
  {
    AliasOf(adjectives[Indices(n).0], nouns[Indices(n).1])
  }

  /** Any 900 calls in a row return 900 different aliases, and call `n + 900` repeats call `n`. */
  lemma AliasesRepeatExactly(adjectives: seq<string>, nouns: seq<string>, n: nat, m: nat)
    requires WordList(adjectives) && WordList(nouns)
    ensures AliasAt(adjectives, nouns, n) == AliasAt(adjectives, nouns, m)
       <==> n % (ARRAY_LEN * ARRAY_LEN) == m % (ARRAY_LEN * ARRAY_LEN)
  {
    SamePairIffCongruent(n, m);
    AliasInjective(adjectives[Indices(n).0], nouns[Indices(n).1], adjectives[Indices(m).0], nouns[Indices(m).1]);
    Different(adjectives, Indices(n).0, Indices(m).0);
    Different(nouns, Indices(n).1, Indices(m).1);
  }

  lemma Different(words: seq<string>, i: nat, j: nat)
    requires NoRepeats(words) && i < |words| && j < |words|
    ensures words[i] == words[j] <==> i == j
  {
  }

  class AliasGenerator {
    const adjectives: seq<string>
    const nouns: seq<string>
    var generatedCount: nat

    /** The two shuffles are arguments: any order of the lists will do. */
    constructor (adjectives: seq<string>, nouns: seq<string>)
      requires WordList(adjectives) && WordList(nouns)
      ensures this.adjectives == adjectives && this.nouns == nouns && generatedCount == 0
    {
      this.adjectives := adjectives;
      this.nouns := nouns;
      generatedCount := 0;
    }

    method GetPair() returns (adjective: string, noun: string)
      requires WordList(adjectives) && WordList(nouns)
      modifies this`generatedCount
      ensures generatedCount == old(generatedCount) + 1
      ensures adjective == adjectives[Indices(old(generatedCount)).0] && noun == nouns[Indices(old(generatedCount)).1]
    {
      var offset := generatedCount / ARRAY_LEN;
      var adjectiveIndex := generatedCount % ARRAY_LEN;
      var nounIndex := (generatedCount + offset) % ARRAY_LEN;
      adjective := adjectives[adjectiveIndex];
      noun := nouns[nounIndex];
      generatedCount := generatedCount + 1;
    }

    method GenerateCapitalized() returns (alias: string)
      requires WordList(adjectives) && WordList(nouns)
      modifies this`generatedCount
      ensures generatedCount == old(generatedCount) + 1
      ensures alias == AliasAt(adjectives, nouns, old(generatedCount))
      ensures ReadsAs(alias, adjectives[Indices(old(generatedCount)).0], nouns[Indices(old(generatedCount)).1])
    {
      var adjective, noun := GetPair();
      AliasReads(adjective, noun);
      alias := Capitalize(adjective) + " " + Capitalize(noun);
    }
  }
}
