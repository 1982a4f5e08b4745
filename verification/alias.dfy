/** Proposal aliases: "Proposal A" to "Proposal Z", "Proposal AA" and on, numbered as
    spreadsheet columns are. */
module Alias {

  const LETTERS: nat := 26

  function Letter(d: nat): char
    requires d < LETTERS
  {
    'A' + d as char
  }

  predicate IsWord(w: string) { forall i :: 0 <= i < |w| ==> 'A' <= w[i] <= 'Z' }

  /** The n-th word, counting the empty word as the 0th. */
  function Word(n: nat): string {
    if n == 0 then "" else Word((n - 1) / LETTERS) + [Letter((n - 1) % LETTERS)]
  }

  function Number(w: string): nat
    requires IsWord(w)
  {
    if w == "" then 0
    else
      Number(w[..|w| - 1]) * LETTERS + (w[|w| - 1] - 'A') as nat + 1
  }

  function AliasOf(index: nat): string { "Proposal " + Word(index + 1) }

  lemma PrependLetter(n: nat, name: string)
    ensures Word(n + 1) + name == Word(n / LETTERS) + ([Letter(n % LETTERS)] + name)
  {
  }

  /** A negative index has no word. */
  method ProposalAlias(index: int) returns (alias: string)
    ensures alias == if index < 0 then "Proposal" else AliasOf(index)
  {
    if index < 0 {
      return "Proposal";
    }
    var n := index + 1;
    var name := "";
    while n > 0
      invariant n >= 0 && Word(n) + name == Word(index + 1)
    {
      n := n - 1;
      PrependLetter(n, name);
      name := [Letter(n % LETTERS)] + name;
      n := n / LETTERS;
    }
    return "Proposal " + name;
  }

  // ----------------------------------------------------------- one to one

  lemma {:induction false} NumberOfWord(n: nat)
    ensures IsWord(Word(n)) && Number(Word(n)) == n
  {
    if n > 0 {
      NumberOfWord((n - 1) / LETTERS);
      var w := Word(n);
      assert w[..|w| - 1] == Word((n - 1) / LETTERS);
    }
  }

  lemma {:induction false} WordOfNumber(w: string)
    requires IsWord(w)
    ensures Word(Number(w)) == w
  {
    if w != "" {
      var init, last := w[..|w| - 1], w[|w| - 1];
      WordOfNumber(init);
      assert w == init + [last];
    }
  }

  lemma AliasEndsInWord(i: nat)
    ensures |AliasOf(i)| >= 9 && AliasOf(i)[9..] == Word(i + 1)
  {
  }

  lemma AliasIsInjective(i: nat, j: nat)
    requires AliasOf(i) == AliasOf(j)
    ensures i == j
  {
    AliasEndsInWord(i);
    AliasEndsInWord(j);
    NumberOfWord(i + 1);
    NumberOfWord(j + 1);
  }

  /** Aliases and indices correspond one to one, and every word of A to Z is in use. */
  lemma AliasIsABijection(i: nat, j: nat, w: string)
    ensures AliasOf(i) == AliasOf(j) <==> i == j
    ensures IsWord(w) && w != "" ==> Number(w) > 0 && AliasOf(Number(w) - 1) == "Proposal " + w
  {
    if AliasOf(i) == AliasOf(j) {
      AliasIsInjective(i, j);
    }
    if IsWord(w) && w != "" {
      WordOfNumber(w);
    }
  }

  // -------------------------------------------------------- shortlex order

  predicate Agree(u: string, v: string, n: nat)
    requires n <= |u| && n <= |v|
  {
    forall i :: 0 <= i < n ==> u[i] == v[i]
  }

  /** The first letter in which two words of one length differ is smaller in u. */
  predicate Lexicographic(u: string, v: string)
    requires |u| == |v|
  {
    exists k :: 0 <= k < |u| && Agree(u, v, k) && u[k] < v[k]
  }

  /** Shorter words first, words of one length alphabetically. */
  predicate Shortlex(u: string, v: string) { |u| < |v| || (|u| == |v| && Lexicographic(u, v)) }

  lemma ShortlexAppend(u: string, v: string, c: char, d: char)
    requires Shortlex(u, v) || (u == v && c < d)
    ensures Shortlex(u + [c], v + [d])
  {
    if |u| == |v| {
      var k := |u|;
      if u != v {
        k :| 0 <= k < |u| && Agree(u, v, k) && u[k] < v[k];
      }
      assert Agree(u + [c], v + [d], k) && (u + [c])[k] < (v + [d])[k];
    }
  }

  lemma ShortlexIsAsymmetric(u: string, v: string)
    requires Shortlex(u, v)
    ensures !Shortlex(v, u)
  {
  }

  lemma {:induction false} SmallerWord(a: nat, b: nat)
    requires a < b
    ensures Shortlex(Word(a), Word(b))
    decreases b
  {
    if a > 0 {
      var p, q := (a - 1) / LETTERS, (b - 1) / LETTERS;
      if p < q {
        SmallerWord(p, q);
      }
      ShortlexAppend(Word(p), Word(q), Letter((a - 1) % LETTERS), Letter((b - 1) % LETTERS));
    }
  }

  /** Index order is shortlex order of the words. */
  lemma IndexOrderIsShortlex(i: nat, j: nat)
    ensures i < j <==> Shortlex(Word(i + 1), Word(j + 1))
  {
    if i < j {
      SmallerWord(i + 1, j + 1);
    } else if j < i {
      SmallerWord(j + 1, i + 1);
      ShortlexIsAsymmetric(Word(j + 1), Word(i + 1));
    }
  }
}
