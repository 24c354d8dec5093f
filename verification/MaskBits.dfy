/** Masks of allow types: one bit for each type. */
module MaskBits {

  // MAX_ALLOW_TYPE_NUM: network, running lock, timer, work scheduler, auto sync, push, freeze
  const TYPES: nat := 7
  // MAX_ALLOW_TYPE_NUMBER
  const ALL_TYPES: bv32 := 127

  /** 1 << index, for the indices of allow types */
  function Bit(i: nat): bv32 {
    if i == 0 then 1 else if i == 1 then 2 else if i == 2 then 4 else if i == 3 then 8
    else if i == 4 then 16 else if i == 5 then 32 else if i == 6 then 64 else 0
  }

  predicate HasBit(mask: bv32, i: nat) {
    And(mask, Bit(i)) != 0
  }

  function Or(a: bv32, b: bv32): bv32 {
    a | b
  }

  function And(a: bv32, b: bv32): bv32 {
    a & b
  }

  function Xor(a: bv32, b: bv32): bv32 {
    a ^ b
  }

  function Subtract(a: bv32, b: bv32): bv32 {
    a - b
  }

  /** The bits of `a` that `b` lacks. */
  function Minus(a: bv32, b: bv32): bv32 {
    a & !b
  }

  predicate Within(a: bv32, b: bv32) {
    Minus(a, b) == 0
  }

  // ---------------------------------------------------------------- one bit

  lemma AndOverOrRaw(a: bv32, b: bv32, c: bv32)
    ensures (a | b) & c == (a & c) | (b & c)
  {
  }

  lemma AndOverOr(a: bv32, b: bv32, c: bv32)
    ensures And(Or(a, b), c) == Or(And(a, c), And(b, c))
  {
    AndOverOrRaw(a, b, c);
  }

  lemma OrZero(a: bv32, b: bv32)
    ensures Or(a, b) == 0 <==> a == 0 && b == 0
  {
  }

  lemma OrHas(a: bv32, b: bv32, i: nat)
    ensures HasBit(Or(a, b), i) <==> HasBit(a, i) || HasBit(b, i)
  {
    AndOverOr(a, b, Bit(i));
    OrZero(And(a, Bit(i)), And(b, Bit(i)));
    hide Or, And, Bit;
  }

  lemma BitHas(i: nat, j: nat)
    requires i < TYPES
    ensures HasBit(Bit(i), j) <==> i == j
    ensures Bit(i) != 0
  {
  }

  lemma SingleBit(mask: bv32, i: nat)
    ensures HasBit(mask, i) ==> And(mask, Bit(i)) == Bit(i) && Or(mask, Bit(i)) == mask
    ensures !HasBit(mask, i) ==> And(mask, Bit(i)) == 0
  {
  }

  // ---------------------------------------------------------------- sets of bits

  lemma WithinItself(a: bv32)
    ensures Within(a, a)
  {
  }

  lemma WithinOr(a: bv32, b: bv32)
    ensures Within(a, Or(a, b))
  {
  }

  lemma WithinTrans(a: bv32, b: bv32, c: bv32)
    requires Within(a, b) && Within(b, c)
    ensures Within(a, c)
  {
  }

  lemma MinusNothing(a: bv32, b: bv32)
    requires Within(b, a)
    ensures Minus(a, b) == 0 <==> a == b
  {
  }

  /** What is announced as new is exactly what was missing. */
  lemma DeltaIsMissing(before: bv32, after: bv32)
    requires Within(before, after)
    ensures Xor(after, And(before, after)) == Minus(after, before)
  {
  }

  lemma AddingBack(before: bv32, after: bv32)
    requires Within(before, after)
    ensures Or(before, Minus(after, before)) == after
  {
  }

  /** Subtracting bits that are all present removes exactly them. */
  lemma SubtractIsMinus(mask: bv32, removed: bv32)
    requires Within(removed, mask)
    ensures Subtract(mask, removed) == Minus(mask, removed)
  {
    SubtractRaw(mask, removed);
  }

  lemma SubtractRaw(mask: bv32, removed: bv32)
    requires removed & !mask == 0
    ensures mask - removed == mask & !removed
  {
  }

  lemma KeepBit(rest: bv32, removed: bv32, bit: bv32)
    requires Within(removed, rest) && And(rest, bit) == 0
    ensures Or(Minus(rest, removed), bit) == Minus(Or(rest, bit), removed)
  {
    KeepRaw(rest, removed, bit);
  }

  lemma KeepRaw(rest: bv32, removed: bv32, bit: bv32)
    requires removed & !rest == 0 && rest & bit == 0
    ensures (rest & !removed) | bit == (rest | bit) & !removed
  {
  }

  lemma DropBit(rest: bv32, removed: bv32, bit: bv32)
    requires And(rest, bit) == 0
    ensures Minus(Or(rest, bit), Or(removed, bit)) == Minus(rest, removed)
  {
  }

  lemma WithinMore(removed: bv32, rest: bv32, bit: bv32)
    requires Within(removed, rest)
    ensures Within(removed, Or(rest, bit))
  {
  }

  lemma WithinBoth(removed: bv32, rest: bv32, bit: bv32)
    requires Within(removed, rest)
    ensures Within(Or(removed, bit), Or(rest, bit))
  {
  }
}
