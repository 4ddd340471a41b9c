/** internal/encrypt/key_generator.go: random key strings such as API key IDs. */
module KeyGenerator {

  /** The 62-letter alphabet the generator draws from. */
  const Letters: string := "abcdefghijklmnopqrstuvwxyzABCDEFGHIJKLMNOPQRSTUVWXYZ0123456789"

  /** What `rand.Intn(len(letter))` can return: an index into `Letters`. */
  newtype LetterIndex = i: int | 0 <= i < 62

  /** The characters that a sequence of draws selects, in draw order. */
  function Spelled(draws: seq<LetterIndex>): (r: string)
    ensures |r| == |draws|
    ensures forall i :: 0 <= i < |r| ==> r[i] == Letters[draws[i]]
  {
    seq(|draws|, i requires 0 <= i < |draws| => Letters[draws[i]])
  }

  /** GenerateKey(prefix, n): fills a rune buffer of length n one index at a
      time with `letter[rand.Intn(62)]`, then returns `prefix + string(b)`.
      The random source is the sequence `draws` of the n values `Intn`
      returns, in call order. */
  method GenerateKey(prefix: string, n: nat, draws: seq<LetterIndex>) returns (key: string)
    requires |draws| == n
    ensures |key| == |prefix| + n
    ensures key[..|prefix|] == prefix
    ensures key[|prefix|..] == Spelled(draws)
    ensures forall i :: |prefix| <= i < |key| ==> key[i] in Letters
    ensures n == 0 ==> key == prefix
  {
    var b := new char[n];
    for i := 0 to n
      invariant forall j :: 0 <= j < i ==> b[j] == Letters[draws[j]]
    {
      b[i] := Letters[draws[i]];
    }
    key := prefix + b[..];
    assert b[..] == Spelled(draws);
  }
}
