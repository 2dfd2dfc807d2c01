/** The DNA mix of `breed`: each bit of the child comes from the first parent
    where the selector bit is 1 and from the second parent where it is 0. */
module Breeding {
  import opened KittyTypes

  /** One byte of the child: `(selector & a) | (!selector & b)`. */
  function MixByte(selector: bv8, a: bv8, b: bv8): (r: bv8)
    ensures r & selector == a & selector
    ensures r & !selector == b & !selector
    ensures selector == 0xFF ==> r == a
    ensures selector == 0 ==> r == b
    ensures a == b ==> r == a
    ensures r & !(a | b) == 0
  {
    (selector & a) | (!selector & b)
  }

  /** The child DNA as a value: every bit comes from parent `a` where the
      selector's bit is 1 and from parent `b` where it is 0. */
  function Mix(selector: Dna, a: Dna, b: Dna): (r: Dna)
    ensures forall i :: 0 <= i < 16 ==>
      r[i] & selector[i] == a[i] & selector[i] && r[i] & !selector[i] == b[i] & !selector[i]
  {
    seq(16, i requires 0 <= i < 16 => MixByte(selector[i], a[i], b[i]))
  }

  /** The loop of `breed` that fills a zeroed 16-byte buffer with the child DNA. */
  method MixDna(selector: Dna, dna1: Dna, dna2: Dna) returns (newDna: Dna)
    ensures newDna == Mix(selector, dna1, dna2)
  {
    var buffer := new bv8[16](_ => 0);
    for i := 0 to buffer.Length
      invariant forall j :: 0 <= j < i ==> buffer[j] == MixByte(selector[j], dna1[j], dna2[j])
    {
      buffer[i] := (selector[i] & dna1[i]) | (!selector[i] & dna2[i]);
    }
    newDna := buffer[..];
  }

  /** Breeding a kitty with an identical twin reproduces its DNA, whatever the selector. */
  lemma MixIdenticalParents(selector: Dna, a: Dna)
    ensures Mix(selector, a, a) == a
  {
  }

  /** A selector of all ones copies the first parent, all zeros copies the second. */
  lemma MixConstantSelector(selector: Dna, a: Dna, b: Dna)
    ensures (forall i :: 0 <= i < 16 ==> selector[i] == 0xFF) ==> Mix(selector, a, b) == a
    ensures (forall i :: 0 <= i < 16 ==> selector[i] == 0) ==> Mix(selector, a, b) == b
  {
  }

  /** Every bit set in the child is set in one of the parents, and bytes the parents agree on are inherited. */
  lemma MixInherits(selector: Dna, a: Dna, b: Dna, i: int)
    requires 0 <= i < 16
    ensures Mix(selector, a, b)[i] & !(a[i] | b[i]) == 0
    ensures a[i] == b[i] ==> Mix(selector, a, b)[i] == a[i]
  {
  }
}
