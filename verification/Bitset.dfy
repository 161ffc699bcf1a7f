/** The packed set of received time steps (set_bit, clear_bit, test_bit of common/melissa_utils.c). */
module Bitset {

  const WORD_BITS: nat := 32

  /** 1 << k in a 32-bit word. */
  function Mask(k: nat): bv32
    requires k < WORD_BITS
  {
    (1 as bv32) << k
  }

  function Or(w: bv32, m: bv32): bv32 { w | m }

  function AndNot(w: bv32, m: bv32): bv32 { w & !m }

  function And(w: bv32, m: bv32): bv32 { w & m }

  predicate Meets(w: bv32, m: bv32) { And(w, m) != 0 }

  // ---- one word ----

  lemma MasksMeet(j: nat, k: nat)
    requires j < WORD_BITS && k < WORD_BITS
    ensures Meets(Mask(j), Mask(k)) <==> j == k
  {
    if j != k {
      MasksDisjoint(j, k);
    }
  }

  lemma MasksDisjoint(j: nat, k: nat)
    requires j < WORD_BITS && k < WORD_BITS && j != k
    ensures Mask(j) & Mask(k) == 0
  {
  }

  lemma SameMask(w: bv32, m: bv32)
    requires Meets(m, m)
    ensures Meets(Or(w, m), m) && !Meets(AndNot(w, m), m)
  {
  }

  lemma OtherMaskOr(w: bv32, m: bv32, n: bv32)
    requires And(m, n) == 0
    ensures And(Or(w, m), n) == And(w, n)
  {
  }

  lemma OtherMaskAndNot(w: bv32, m: bv32, n: bv32)
    requires And(m, n) == 0
    ensures And(AndNot(w, m), n) == And(w, n)
  {
  }

  lemma OtherMask(w: bv32, m: bv32, n: bv32)
    requires !Meets(m, n)
    ensures Meets(Or(w, m), n) <==> Meets(w, n)
    ensures Meets(AndNot(w, m), n) <==> Meets(w, n)
  {
    hide And;
    hide Or;
    hide AndNot;
    OtherMaskOr(w, m, n);
    OtherMaskAndNot(w, m, n);
  }

  /** Updating bit k of a word changes bit k only. */
  lemma WordUpdate(w: bv32, k: nat, j: nat)
    requires k < WORD_BITS && j < WORD_BITS
    ensures Meets(Or(w, Mask(k)), Mask(j)) <==> j == k || Meets(w, Mask(j))
    ensures Meets(AndNot(w, Mask(k)), Mask(j)) <==> j != k && Meets(w, Mask(j))
  {
    hide *;
    MasksMeet(k, j);
    if j == k {
      SameMask(w, Mask(k));
    } else {
      OtherMask(w, Mask(k), Mask(j));
    }
  }

  // ---- an array of words ----

  predicate TestBit(words: seq<bv32>, pos: nat)
    requires pos / WORD_BITS < |words|
  {
    Meets(words[pos / WORD_BITS], Mask(pos % WORD_BITS))
  }

  function SetBit(words: seq<bv32>, pos: nat): seq<bv32>
    requires pos / WORD_BITS < |words|
  {
    words[pos / WORD_BITS := Or(words[pos / WORD_BITS], Mask(pos % WORD_BITS))]
  }

  function ClearBit(words: seq<bv32>, pos: nat): seq<bv32>
    requires pos / WORD_BITS < |words|
  {
    words[pos / WORD_BITS := AndNot(words[pos / WORD_BITS], Mask(pos % WORD_BITS))]
  }

  /** Number of words for n positions. */
  function WordsFor(n: nat): nat {
    (n + 31) / WORD_BITS
  }

  /** The positions below n that are set. */
  ghost function Members(words: seq<bv32>, n: nat): set<nat>
    requires WordsFor(n) <= |words|
  {
    set p: nat | p < n && TestBit(words, p)
  }

  lemma SameCell(p: nat, q: nat)
    requires p / WORD_BITS == q / WORD_BITS && p % WORD_BITS == q % WORD_BITS
    ensures p == q
  {
    assert p == WORD_BITS * (p / WORD_BITS) + p % WORD_BITS;
    assert q == WORD_BITS * (q / WORD_BITS) + q % WORD_BITS;
  }

  lemma OnlyPos(words: seq<bv32>, pos: nat, q: nat)
    requires pos / WORD_BITS < |words| && q / WORD_BITS < |words|
    ensures TestBit(SetBit(words, pos), q) <==> q == pos || TestBit(words, q)
    ensures TestBit(ClearBit(words, pos), q) <==> q != pos && TestBit(words, q)
  {
    hide Mask;
    hide Or;
    hide AndNot;
    hide Meets;
    if q / WORD_BITS == pos / WORD_BITS {
      WordUpdate(words[pos / WORD_BITS], pos % WORD_BITS, q % WORD_BITS);
      if q % WORD_BITS == pos % WORD_BITS {
        SameCell(q, pos);
      }
    }
  }

  /** On (n + 31) / 32 words the three operations are insert, remove and member on a set of positions below n. */
  lemma BitsetRefinesSet(words: seq<bv32>, n: nat, pos: nat)
    requires |words| == WordsFor(n) && pos < n
    ensures Members(SetBit(words, pos), n) == Members(words, n) + {pos}
    ensures Members(ClearBit(words, pos), n) == Members(words, n) - {pos}
    ensures TestBit(words, pos) <==> pos in Members(words, n)
  {
    hide Mask;
    hide Meets;
    forall q: nat | q < n
      ensures q in Members(SetBit(words, pos), n) <==> q == pos || q in Members(words, n)
      ensures q in Members(ClearBit(words, pos), n) <==> q != pos && q in Members(words, n)
    {
      OnlyPos(words, pos, q);
    }
  }

  method SetBitInPlace(vect: array<bv32>, pos: nat)
    requires pos / WORD_BITS < vect.Length
    modifies vect
    ensures vect[..] == SetBit(old(vect[..]), pos)
  {
    vect[pos / WORD_BITS] := Or(vect[pos / WORD_BITS], Mask(pos % WORD_BITS));
  }

  method ClearBitInPlace(vect: array<bv32>, pos: nat)
    requires pos / WORD_BITS < vect.Length
    modifies vect
    ensures vect[..] == ClearBit(old(vect[..]), pos)
  {
    vect[pos / WORD_BITS] := AndNot(vect[pos / WORD_BITS], Mask(pos % WORD_BITS));
  }
}
