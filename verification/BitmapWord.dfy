/** The 8-bit word that holds the bitmap. */
module BitmapWord {
  import opened ReadyBitmap

  function Mask(p: Priority): bv8 {
    if p == 0 then 1 else if p == 1 then 2 else if p == 2 then 4 else if p == 3 then 8
    else if p == 4 then 16 else if p == 5 then 32 else if p == 6 then 64 else 128
  }

  predicate HasBit(b: bv8, p: Priority) {
    b & Mask(p) != 0
  }

  /** The set a word stands for. */
  function Bits(b: bv8): set<Priority> {
    set p: Priority | 0 <= p < PRIORITY_COUNT && HasBit(b, p)
  }

  lemma SetBitHas(b: bv8, p: Priority, q: Priority)
    ensures HasBit(b | Mask(p), q) <==> q == p || HasBit(b, q)
  {
    if p == 0 { } else if p == 1 { } else if p == 2 { } else if p == 3 { }
    else if p == 4 { } else if p == 5 { } else if p == 6 { }
  }

  lemma ClearBitHas(b: bv8, p: Priority, q: Priority)
    ensures HasBit(b & !Mask(p), q) <==> q != p && HasBit(b, q)
  {
    if p == 0 { } else if p == 1 { } else if p == 2 { } else if p == 3 { }
    else if p == 4 { } else if p == 5 { } else if p == 6 { }
  }

  function SetBit(b: bv8, p: Priority): (r: bv8)
    ensures Bits(r) == Bits(b) + {p}
  {
    assert forall q: Priority :: HasBit(b | Mask(p), q) <==> q == p || HasBit(b, q) by {
      forall q: Priority { SetBitHas(b, p, q); }
    }
    b | Mask(p)
  }

  function ClearBit(b: bv8, p: Priority): (r: bv8)
    ensures Bits(r) == Bits(b) - {p}
  {
    assert forall q: Priority :: HasBit(b & !Mask(p), q) <==> q != p && HasBit(b, q) by {
      forall q: Priority { ClearBitHas(b, p, q); }
    }
    b & !Mask(p)
  }

  /** A word is determined by the set it stands for. */
  lemma SameBits(a: bv8, b: bv8)
    ensures Bits(a) == Bits(b) <==> a == b
  {
    if Bits(a) == Bits(b) {
      forall p: Priority ensures HasBit(a, p) == HasBit(b, p) {
        assert HasBit(a, p) == (p in Bits(a)) && HasBit(b, p) == (p in Bits(b));
      }
      AllBits(a, b);
    }
  }

  lemma AllBits(a: bv8, b: bv8)
    requires forall p: Priority :: HasBit(a, p) == HasBit(b, p)
    ensures a == b
  {
    assert HasBit(a, 0) == HasBit(b, 0) && HasBit(a, 1) == HasBit(b, 1) && HasBit(a, 2) == HasBit(b, 2)
      && HasBit(a, 3) == HasBit(b, 3);
    assert HasBit(a, 4) == HasBit(b, 4) && HasBit(a, 5) == HasBit(b, 5) && HasBit(a, 6) == HasBit(b, 6)
      && HasBit(a, 7) == HasBit(b, 7);
  }
}
