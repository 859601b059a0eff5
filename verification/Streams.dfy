/** What reading a file or a pipe to its end brings, one read after the other. */
module Streams {
  import opened Outcome

  // A byte is written as the character with its code.
  datatype Reading = Chunk(bytes: string) | Broken

  predicate Delivers(reading: Reading) {
    reading.Chunk? && reading.bytes != []
  }

  // How many readings deliver bytes before an empty or failing one.
  function Live(input: seq<Reading>, from: nat := 0): (n: nat)
    requires from <= |input|
    ensures from <= n <= |input|
    ensures n < |input| ==> !Delivers(input[n])
    ensures forall i | from <= i < n :: Delivers(input[i])
    decreases |input| - from
  {
    if from == |input| || !Delivers(input[from]) then from else Live(input, from + 1)
  }

  // The bytes of the first readings, one after the other.
  function Concat(input: seq<Reading>, n: nat): string
    requires n <= |input| && forall i | 0 <= i < n :: input[i].Chunk?
  {
    if n == 0 then [] else Concat(input, n - 1) + input[n - 1].bytes
  }

  lemma {:induction false} ConcatGrows(input: seq<Reading>, m: nat, n: nat)
    requires m <= n <= |input| && forall i | 0 <= i < n :: input[i].Chunk?
    ensures |Concat(input, m)| <= |Concat(input, n)|
  {
    if m < n {
      ConcatGrows(input, m, n - 1);
    }
  }

  // Everything a reader delivers; None when a read fails.
  function Content(input: seq<Reading>): Option<string> {
    var n := Live(input);
    if n < |input| && input[n].Broken? then None else Some(Concat(input, n))
  }
}
