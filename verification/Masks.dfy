/** 64-bit masks and their bits. */
module Masks {
  type Bits = bv64

  // A bit position.
  type Position = bv6

  predicate Bit(x: Bits, i: Position) {
    (x >> i) & 1 == 1
  }

  // All required bits are set, as the server tests it.
  predicate Has(bits: Bits, required: Bits) {
    bits & required == required
  }

  function Or(x: Bits, y: Bits): Bits {
    x | y
  }

  function Without(x: Bits, y: Bits): Bits {
    x & !y
  }

  lemma BitOfMeet(x: Bits, y: Bits, i: Position)
    ensures Bit(x & y, i) <==> Bit(x, i) && Bit(y, i)
    ensures Bit(x & !y, i) <==> Bit(x, i) && !Bit(y, i)
  {
  }

  lemma BitOfJoin(x: Bits, y: Bits, i: Position)
    ensures Bit(x | y, i) <==> Bit(x, i) || Bit(y, i)
  {
  }

  // A mask that is not zero has a bit; it is found by halving.
  lemma SomeBit(x: Bits) returns (i: Position)
    requires x != 0
    ensures Bit(x, i)
  {
    i := 0;
    if x & 0xFFFF_FFFF == 0 { i := 32; }
    if (x >> i) & 0xFFFF == 0 { i := i | 16; }
    if (x >> i) & 0xFF == 0 { i := i | 8; }
    if (x >> i) & 0xF == 0 { i := i | 4; }
    if (x >> i) & 3 == 0 { i := i | 2; }
    if (x >> i) & 1 == 0 { i := i | 1; }
  }

  lemma ShortfallIsNonZero(x: Bits, y: Bits)
    ensures x & y != y ==> y & !x != 0
    ensures x & y == y && y & x == x ==> x == y
  {
  }

  // A mask that falls short misses some required bit.
  lemma MissingBit(bits: Bits, required: Bits) returns (i: Position)
    requires !Has(bits, required)
    ensures Bit(required, i) && !Bit(bits, i)
  {
    ShortfallIsNonZero(bits, required);
    i := SomeBit(required & !bits);
    BitOfMeet(required, bits, i);
  }

  // `has` is the conjunction over the required bits.
  lemma HasIsConjunction(bits: Bits, required: Bits)
    ensures Has(bits, required) <==> forall i: Position :: Bit(required, i) ==> Bit(bits, i)
  {
    if Has(bits, required) {
      forall i: Position | Bit(required, i)
        ensures Bit(bits, i)
      {
        BitOfMeet(bits, required, i);
      }
    } else {
      var i := MissingBit(bits, required);
    }
  }

  // Two masks with the same bits are the same mask.
  lemma SameBits(x: Bits, y: Bits)
    requires forall i: Position :: Bit(x, i) <==> Bit(y, i)
    ensures x == y
  {
    HasIsConjunction(x, y);
    HasIsConjunction(y, x);
    ShortfallIsNonZero(x, y);
  }

  // --------------------------------------------------------------- readers

  // A reader answers one question of a mask. It is bitwise when it follows
  // the mask operators the way a single bit does.
  ghost predicate Bitwise(sees: Bits -> bool) {
    && !sees(0)
    && (forall x, y :: sees(Or(x, y)) <==> sees(x) || sees(y))
    && (forall x, y :: sees(Without(x, y)) <==> sees(x) && !sees(y))
  }

  function At(i: Position): Bits -> bool {
    (x: Bits) => Bit(x, i)
  }

  lemma AtIsBitwise(i: Position)
    ensures Bitwise(At(i))
  {
    forall x, y
      ensures At(i)(Or(x, y)) <==> At(i)(x) || At(i)(y)
    {
      BitOfJoin(x, y, i);
    }
    forall x, y
      ensures At(i)(Without(x, y)) <==> At(i)(x) && !At(i)(y)
    {
      BitOfMeet(x, y, i);
    }
  }
}
