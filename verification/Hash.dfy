/** The splitmix64 mixer: a permutation of the 64-bit words, and the stream it drives. */
module Hash {
  const WORDS := 0x1_0000_0000_0000_0000

  type Word = x: int | 0 <= x < WORDS

  // ----- exclusive or and right shift -----

  function Xor(a: nat, b: nat): nat {
    if a == 0 && b == 0 then 0 else (a % 2 + b % 2) % 2 + 2 * Xor(a / 2, b / 2)
  }

  function Shr(a: nat, k: nat): nat {
    if k == 0 then a else Shr(a / 2, k - 1)
  }

  lemma {:induction false} XorZero(a: nat)
    ensures Xor(a, 0) == a && Xor(0, a) == a
  {
    if a != 0 {
      XorZero(a / 2);
    }
  }

  lemma Halves(p: nat, y: nat)
    requires p < 2
    ensures (p + 2 * y) / 2 == y && (p + 2 * y) % 2 == p
  {
  }

  lemma XorHalf(a: nat, b: nat)
    ensures Xor(a, b) / 2 == Xor(a / 2, b / 2) && Xor(a, b) % 2 == (a % 2 + b % 2) % 2
  {
    if a == 0 && b == 0 {
      assert Xor(0, 0) == 0;
    } else {
      var y, p := Xor(a / 2, b / 2), (a % 2 + b % 2) % 2;
      assert Xor(a, b) == p + 2 * y;
      Halves(p, y);
    }
  }

  function Half(a: nat): nat {
    a / 2
  }

  function Bit(a: nat): nat {
    a % 2
  }

  function BitXor(p: nat, q: nat): nat {
    (p + q) % 2
  }

  lemma XorParts(a: nat, b: nat)
    ensures Half(Xor(a, b)) == Xor(Half(a), Half(b)) && Bit(Xor(a, b)) == BitXor(Bit(a), Bit(b))
  {
    XorHalf(a, b);
    hide Xor;
  }

  lemma BitsAssociate(a: nat, b: nat, c: nat)
    ensures BitXor(BitXor(Bit(a), Bit(b)), Bit(c)) == BitXor(Bit(a), BitXor(Bit(b), Bit(c)))
  {
  }

  lemma ByHalves(m: nat, n: nat)
    requires Half(m) == Half(n) && Bit(m) == Bit(n)
    ensures m == n
  {
  }

  lemma HalfLess(a: nat)
    ensures Half(a) <= a && (a > 0 ==> Half(a) < a)
  {
  }

  lemma {:induction false} XorAssociates(a: nat, b: nat, c: nat)
    ensures Xor(Xor(a, b), c) == Xor(a, Xor(b, c))
    decreases a + b + c
  {
    hide Xor, Half, Bit, BitXor;
    if a == 0 && b == 0 && c == 0 {
      XorZero(0);
    } else {
      HalfLess(a);
      HalfLess(b);
      HalfLess(c);
      XorAssociates(Half(a), Half(b), Half(c));
      XorParts(a, b);
      XorParts(b, c);
      XorParts(Xor(a, b), c);
      XorParts(a, Xor(b, c));
      BitsAssociate(a, b, c);
      ByHalves(Xor(Xor(a, b), c), Xor(a, Xor(b, c)));
    }
  }

  lemma {:induction false} XorSelf(a: nat)
    ensures Xor(a, a) == 0
  {
    if a != 0 {
      XorSelf(a / 2);
    }
  }

  lemma {:induction false} ShrXor(a: nat, b: nat, k: nat)
    ensures Shr(Xor(a, b), k) == Xor(Shr(a, k), Shr(b, k))
  {
    if k > 0 {
      XorHalf(a, b);
      ShrXor(a / 2, b / 2, k - 1);
    }
  }

  lemma {:induction false} ShrShr(a: nat, j: nat, k: nat)
    ensures Shr(Shr(a, j), k) == Shr(a, j + k)
  {
    if j > 0 {
      ShrShr(a / 2, j - 1, k);
    }
  }

  function Power(k: nat): nat {
    if k == 0 then 1 else 2 * Power(k - 1)
  }

  lemma {:induction false} ShrAll(a: nat, k: nat)
    requires a < Power(k)
    ensures Shr(a, k) == 0
  {
    if k > 0 {
      ShrAll(a / 2, k - 1);
    }
  }

  lemma {:induction false} XorBound(a: nat, b: nat, k: nat)
    requires a < Power(k) && b < Power(k)
    ensures Xor(a, b) < Power(k)
  {
    if k > 0 && (a != 0 || b != 0) {
      XorBound(a / 2, b / 2, k - 1);
    }
  }

  lemma {:induction false} ShrBound(a: nat, k: nat)
    ensures Shr(a, k) <= a
  {
    if k > 0 {
      ShrBound(a / 2, k - 1);
    }
  }

  // ----- folds: a word exclusive-or its own shift -----

  lemma WordPower()
    ensures Power(64) == WORDS
  {
    assert Power(16) == 0x1_0000 by {
      assert Power(4) == 16 && Power(8) == 256;
      assert Power(12) == 4096;
    }
    PowerAdds(16, 16);
    PowerAdds(32, 32);
  }

  lemma {:induction false} PowerAdds(j: nat, k: nat)
    ensures Power(j + k) == Power(j) * Power(k)
  {
    if j > 0 {
      PowerAdds(j - 1, k);
    }
  }

  lemma XorWord(a: Word, b: Word)
    ensures Xor(a, b) < WORDS
  {
    WordPower();
    XorBound(a, b, 64);
  }

  function Fold(x: Word, k: nat): Word {
    ShrBound(x, k);
    XorWord(x, Shr(x, k));
    Xor(x, Shr(x, k))
  }

  /** A fold by at least a third of the width is undone by folding back twice as far as well. */
  function Unfold(x: Word, k: nat): Word {
    ShrBound(x, 2 * k);
    XorWord(Fold(x, k), Shr(x, 2 * k));
    Xor(Fold(x, k), Shr(x, 2 * k))
  }

  lemma ShrOut(x: Word, k: nat)
    requires k >= 64
    ensures Shr(x, k) == 0
  {
    WordPower();
    ShrShr(x, 64, k - 64);
    ShrAll(x, 64);
    ShrBound(0, k - 64);
  }

  /** `(a ^ b) ^ (b ^ c) ^ (c ^ d) == a ^ d`. */
  lemma Telescopes(a: nat, b: nat, c: nat, d: nat)
    ensures Xor(Xor(Xor(a, b), Xor(b, c)), Xor(c, d)) == Xor(a, d)
  {
    Bridges(a, b, c);
    Bridges(a, c, d);
  }

  lemma Bridges(a: nat, b: nat, c: nat)
    ensures Xor(Xor(a, b), Xor(b, c)) == Xor(a, c)
  {
    XorAssociates(a, b, Xor(b, c));
    XorAssociates(b, b, c);
    XorSelf(b);
    XorZero(c);
  }

  lemma FoldUndone(x: Word, k: nat)
    requires 3 * k >= 64
    ensures Unfold(Fold(x, k), k) == x
  {
    var b, c, d := Shr(x, k), Shr(x, 2 * k), Shr(x, 3 * k);
    ShrXor(x, b, k);
    ShrXor(x, b, 2 * k);
    ShrShr(x, k, k);
    ShrShr(x, k, 2 * k);
    ShrOut(x, 3 * k);
    Telescopes(x, b, c, d);
    XorZero(x);
  }

  lemma UnfoldUndone(x: Word, k: nat)
    requires 3 * k >= 64
    ensures Fold(Unfold(x, k), k) == x
  {
    var b, c, d := Shr(x, k), Shr(x, 2 * k), Shr(x, 3 * k);
    var y := Xor(Xor(x, b), c);
    ShrXor(Xor(x, b), c, k);
    ShrXor(x, b, k);
    ShrShr(x, k, k);
    ShrShr(x, 2 * k, k);
    ShrOut(x, 3 * k);
    assert Shr(y, k) == Xor(Xor(b, c), d);
    XorZero(Xor(b, c));
    XorAssociates(x, b, c);
    Bridges(x, Xor(b, c), 0);
    XorZero(x);
    XorZero(Xor(b, c));
  }

  // ----- odd factors -----

  /** A wrapping product. */
  function Times(x: Word, c: Word): Word {
    (x * c) % WORDS
  }

  lemma TimesUndone(x: Word, c: Word, inverse: Word, over: nat)
    requires c * inverse == 1 + over * WORDS
    ensures Times(Times(x, c), inverse) == x
  {
    var q := (x * c) / WORDS;
    var r := Times(x, c);
    assert x * c == q * WORDS + r;
    var t := x * over - q * inverse;
    calc {
      r * inverse;
      (x * c - q * WORDS) * inverse;
      x * (c * inverse) - q * inverse * WORDS;
      x * (1 + over * WORDS) - q * inverse * WORDS;
      x + t * WORDS;
    }
    Remainder(r * inverse, x, t);
  }

  lemma Remainder(n: nat, x: Word, t: int)
    requires n == x + t * WORDS
    ensures n % WORDS == x
  {
  }

  // ----- the finisher -----

  const MIX_1: Word := 0xBF58_476D_1CE4_E5B9
  const MIX_2: Word := 0x94D0_49BB_1331_11EB
  const GOLDEN: Word := 0x9E37_79B9_7F4A_7C15

  /** Their inverses modulo 2^64. */
  const UNMIX_1: Word := 0x96DE_1B17_3F11_9089
  const UNMIX_2: Word := 0x3196_42B2_D24D_8EC3
  const UNGOLD: Word := 0xF1DE_83E1_9937_733D

  lemma Inverses()
    ensures MIX_1 * UNMIX_1 == 1 + 0x70C3_BCA7_8F27_F46C * WORDS
    ensures MIX_2 * UNMIX_2 == 1 + 0x1CD3_36ED_A85F_1453 * WORDS
    ensures GOLDEN * UNGOLD == 1 + 0x957B_BF35_006E_D677 * WORDS
  {
  }

  function Finish(h: Word): Word {
    Fold(Times(Fold(Times(Fold(h, 30), MIX_1), 27), MIX_2), 31)
  }

  function Unfinish(h: Word): Word {
    Unfold(Times(Unfold(Times(Unfold(h, 31), UNMIX_2), 27), UNMIX_1), 30)
  }

  /** The finisher is a bijection on the 64-bit words, and this is its inverse. */
  lemma FinishIsBijective(h: Word)
    ensures Unfinish(Finish(h)) == h && Finish(Unfinish(h)) == h
  {
    hide Fold, Unfold, Times;
    Inverses();
    var a, x := Fold(h, 30), Unfold(h, 31);
    var b, y := Times(a, MIX_1), Times(x, UNMIX_2);
    var c, z := Fold(b, 27), Unfold(y, 27);
    var d, w := Times(c, MIX_2), Times(z, UNMIX_1);
    FoldUndone(d, 31);
    TimesUndone(c, MIX_2, UNMIX_2, 0x1CD3_36ED_A85F_1453);
    FoldUndone(b, 27);
    TimesUndone(a, MIX_1, UNMIX_1, 0x70C3_BCA7_8F27_F46C);
    FoldUndone(h, 30);
    UnfoldUndone(w, 30);
    TimesUndone(z, UNMIX_1, MIX_1, 0x70C3_BCA7_8F27_F46C);
    UnfoldUndone(y, 27);
    TimesUndone(x, UNMIX_2, MIX_2, 0x1CD3_36ED_A85F_1453);
    UnfoldUndone(h, 31);
  }

  // ----- the stream -----

  function Advance(state: Word): Word {
    (state + GOLDEN) % WORDS
  }

  function Rewound(state: Word): Word {
    (state - GOLDEN) % WORDS
  }

  lemma AdvanceUndone(state: Word)
    ensures Rewound(Advance(state)) == state && Advance(state) != state
  {
  }

  /** One step: the state moves on, and the output hides nothing of it. Unmixing the output gives the
      new state, and from that the old one. */
  method Next(state: Word) returns (now: Word, out: Word)
    ensures now == After(state, 1) && out == Finish(now)
    ensures now != state && Unfinish(out) == now && Rewound(Unfinish(out)) == state
  {
    hide Finish, Unfinish;
    now := (state + GOLDEN) % WORDS;
    out := Finish(now);
    AdvanceUndone(state);
    FinishIsBijective(now);
    assert After(state, 1) == Advance(After(state, 0));
  }

  /** The state after `k` steps. */
  function After(state: Word, k: nat): Word {
    if k == 0 then state else Advance(After(state, k - 1))
  }

  lemma {:induction false} AfterIsLinear(state: Word, k: nat)
    ensures After(state, k) == (state + k * GOLDEN) % WORDS
  {
    if k > 0 {
      AfterIsLinear(state, k - 1);
      OneMoreStep(state, k, GOLDEN);
    }
  }

  lemma OneMoreStep(state: Word, k: nat, g: Word)
    requires k > 0
    ensures ((state + (k - 1) * g) % WORDS + g) % WORDS == (state + k * g) % WORDS
  {
    var far := state + (k - 1) * g;
    assert far + g == state + k * g;
    var near := (far % WORDS + g) % WORDS;
    Remainder(far + g, near, far / WORDS + (far % WORDS + g) / WORDS);
  }

  /** An odd increment visits distinct states. */
  lemma TravelIsInjective(state: Word, j: Word, k: Word, g: Word, inverse: Word, over: nat)
    requires g * inverse == 1 + over * WORDS && (state + j * g) % WORDS == (state + k * g) % WORDS
    ensures j == k
  {
    SameTravel(state, j * g, k * g);
    TimesUndone(j, g, inverse, over);
    TimesUndone(k, g, inverse, over);
  }

  /** From any state, 2^64 consecutive outputs are pairwise distinct. */
  lemma OutputsDiffer(state: Word, j: Word, k: Word)
    requires Finish(After(state, j)) == Finish(After(state, k))
    ensures j == k
  {
    hide Finish, Unfinish, After;
    FinishIsBijective(After(state, j));
    FinishIsBijective(After(state, k));
    AfterIsLinear(state, j);
    AfterIsLinear(state, k);
    Inverses();
    TravelIsInjective(state, j, k, GOLDEN, UNGOLD, 0x957B_BF35_006E_D677);
  }

  lemma SameTravel(state: Word, a: nat, b: nat)
    requires (state + a) % WORDS == (state + b) % WORDS
    ensures a % WORDS == b % WORDS
  {
    var p, q := (state + a) / WORDS, (state + b) / WORDS;
    assert a - b == (p - q) * WORDS;
    var m := b / WORDS;
    Remainder(a, b % WORDS, m + p - q);
  }
}
