/** The pseudo-random source. A transaction's draws are read from a tape of naturals, one
    position per call of `random.randint` or `random.random`, in the order Python evaluates
    them; every property of the model is stated for every tape. */
module Draws {
  import Probabilities

  type Tape = nat -> nat

  /** `random.randint(a, b)`: an integer in the closed range [a, b]. */
  function RandInt(tape: Tape, k: nat, a: int, b: int): (r: int)
    requires a <= b
    ensures a <= r <= b
  {
    a + tape(k) % (b - a + 1)
  }

  /** `random.random() < p`, with `p` in hundredths. */
  predicate Below(tape: Tape, k: nat, p: nat) {
    tape(k) % Probabilities.Scale < p
  }

  /** Every value of the range is drawn by some tape. */
  lemma RandIntOnto(k: nat, a: int, b: int, v: int)
    requires a <= v <= b
    ensures exists tape: Tape :: RandInt(tape, k, a, b) == v
  {
    var tape: Tape := _ => (v - a) as nat;
    assert RandInt(tape, k, a, b) == v;
  }

  /** A chance of zero never fires, a chance of a whole hundred always does, and any chance
      strictly between fires on some tape and not on another. */
  lemma BelowOutcomes(k: nat, p: nat)
    ensures p == 0 ==> forall tape: Tape :: !Below(tape, k, p)
    ensures p >= Probabilities.Scale ==> forall tape: Tape :: Below(tape, k, p)
    ensures 0 < p < Probabilities.Scale ==>
      (exists tape: Tape :: Below(tape, k, p)) && (exists tape: Tape :: !Below(tape, k, p))
  {
    if 0 < p < Probabilities.Scale {
      var yes: Tape := _ => 0;
      var no: Tape := _ => p;
      assert Below(yes, k, p);
      assert !Below(no, k, p);
    }
  }
}
