/** Laws of concatenation, to be called where the verifier is better told than left to look. */
module Sequences {
  lemma {:induction false} Assoc<T>(a: seq<T>, b: seq<T>, c: seq<T>)
    ensures (a + b) + c == a + (b + c)
  {
  }

  lemma {:induction false} Neutral<T>(a: seq<T>)
    ensures a + [] == a && [] + a == a
  {
  }
}
