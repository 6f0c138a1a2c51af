/** The ciphers of crypto/aes_generic.c and crypto/anubis.c as their designs define them: polynomials over the bits,
    matrices over the field, bytes by row and column, and chains of states. */
module CipherFields {

  import A = Aes
  import N = Anubis

  // ---------------------------------------------------------------- The fields

  /** `x^8 + x^4 + x^3 + x + 1`, section 4.2 of FIPS 197. */
  const AES_POLY: bv16 := 0x11b

  /** `x^8 + x^4 + x^3 + x^2 + 1`. */
  const ANUBIS_POLY: bv16 := 0x11d

  function Poly(a: bv8): bv16 { a as bv16 }

  /** The product of two polynomials, the first of degree at most three, before reduction. */
  function Carryless(c: bv8, s: bv8): bv16 {
    (if c & 1 == 0 then 0 else Poly(s)) ^ (if c & 2 == 0 then 0 else Poly(s) << 1)
    ^ (if c & 4 == 0 then 0 else Poly(s) << 2) ^ (if c & 8 == 0 then 0 else Poly(s) << 3)
  }

  /** One step of long division: the term of degree `8 + i` goes. */
  function Divide(poly: bv16, p: bv16, i: nat): bv16
    requires i < 3
  {
    if p & (0x100 << i) == 0 then p else p ^ (poly << i)
  }

  /** The product in the field. */
  function Times(poly: bv16, c: bv8, s: bv8): bv16 {
    Divide(poly, Divide(poly, Divide(poly, Carryless(c, s), 2), 1), 0)
  }

  function Add(x: bv16, y: bv16): bv16 { x ^ y }

  /** A row of a matrix times a column. */
  function Dot(poly: bv16, c0: bv8, c1: bv8, c2: bv8, c3: bv8, x: A.Word): bv16 {
    Add(Add(Add(Times(poly, c0, x.a), Times(poly, c1, x.b)), Times(poly, c2, x.c)), Times(poly, c3, x.d))
  }

  lemma {:induction false} PolyAdds(x: bv8, y: bv8)
    ensures Poly(A.Bx(x, y)) == Add(Poly(x), Poly(y))
  {
  }

  lemma {:induction false} PolySum(p: bv8, q: bv8, r: bv8, t: bv8)
    ensures Poly(A.Bx(A.Bx(A.Bx(p, q), r), t)) == Add(Add(Add(Poly(p), Poly(q)), Poly(r)), Poly(t))
  {
    hide Poly, A.Bx, Add;
    PolyAdds(A.Bx(A.Bx(p, q), r), t);
    PolyAdds(A.Bx(p, q), r);
    PolyAdds(p, q);
  }

  /** A word that is the sum of four, byte by byte. */
  lemma {:induction false} SumBytes(f0: A.Word, f1: A.Word, f2: A.Word, f3: A.Word)
    ensures var w := A.Xor(A.Xor(A.Xor(f0, f1), f2), f3);
            && Poly(w.a) == Add(Add(Add(Poly(f0.a), Poly(f1.a)), Poly(f2.a)), Poly(f3.a))
            && Poly(w.b) == Add(Add(Add(Poly(f0.b), Poly(f1.b)), Poly(f2.b)), Poly(f3.b))
            && Poly(w.c) == Add(Add(Add(Poly(f0.c), Poly(f1.c)), Poly(f2.c)), Poly(f3.c))
            && Poly(w.d) == Add(Add(Add(Poly(f0.d), Poly(f1.d)), Poly(f2.d)), Poly(f3.d))
  {
    hide Poly, A.Bx, Add;
    PolySum(f0.a, f1.a, f2.a, f3.a);
    PolySum(f0.b, f1.b, f2.b, f3.b);
    PolySum(f0.c, f1.c, f2.c, f3.c);
    PolySum(f0.d, f1.d, f2.d, f3.d);
  }

  lemma {:induction false} SmallTimes(s: bv8)
    ensures Times(AES_POLY, 1, s) == Poly(s) && Times(AES_POLY, 2, s) == Poly(A.Xt(s))
    ensures Times(AES_POLY, 3, s) == Poly(A.Bx(A.Xt(s), s))
  {
  }

  lemma {:induction false} NineTimes(s: bv8)
    ensures Times(AES_POLY, 9, s) == Poly(A.Nine(s))
  {
  }

  lemma {:induction false} ElevenTimes(s: bv8)
    ensures Times(AES_POLY, 11, s) == Poly(A.Eleven(s))
  {
  }

  lemma {:induction false} ThirteenTimes(s: bv8)
    ensures Times(AES_POLY, 13, s) == Poly(A.Thirteen(s))
  {
  }

  lemma {:induction false} FourteenTimes(s: bv8)
    ensures Times(AES_POLY, 14, s) == Poly(A.Fourteen(s))
  {
  }

  lemma {:induction false} LargeTimes(s: bv8)
    ensures Times(AES_POLY, 9, s) == Poly(A.Nine(s)) && Times(AES_POLY, 11, s) == Poly(A.Eleven(s))
    ensures Times(AES_POLY, 13, s) == Poly(A.Thirteen(s)) && Times(AES_POLY, 14, s) == Poly(A.Fourteen(s))
  {
    hide Times, Poly, A.Nine, A.Eleven, A.Thirteen, A.Fourteen;
    NineTimes(s);
    ElevenTimes(s);
    ThirteenTimes(s);
    FourteenTimes(s);
  }

  lemma {:induction false} AnubisTimes(s: bv8)
    ensures Times(ANUBIS_POLY, 1, s) == Poly(s) && Times(ANUBIS_POLY, 2, s) == Poly(N.Xt(s))
    ensures Times(ANUBIS_POLY, 4, s) == Poly(N.Xt(N.Xt(s))) && Times(ANUBIS_POLY, 6, s) == Poly(N.Six(s))
  {
  }

  /** The forward tables mix a column by the matrix of section 5.1.3 of FIPS 197. */
  lemma {:induction false} MixIsMatrix(x: A.Word)
    ensures var y := A.Mix(x);
            && Poly(y.a) == Dot(AES_POLY, 2, 3, 1, 1, x) && Poly(y.b) == Dot(AES_POLY, 1, 2, 3, 1, x)
            && Poly(y.c) == Dot(AES_POLY, 1, 1, 2, 3, x) && Poly(y.d) == Dot(AES_POLY, 3, 1, 1, 2, x)
  {
    hide Poly, A.Bx, A.Xt, Add, Times, A.Xor;
    SmallTimes(x.a);
    SmallTimes(x.b);
    SmallTimes(x.c);
    SmallTimes(x.d);
    SumBytes(A.Ft(0, x.a), A.Ft(1, x.b), A.Ft(2, x.c), A.Ft(3, x.d));
  }

  /** `imix_col`, and so the inverse tables, by the inverse matrix of section 5.3.3. */
  lemma {:induction false} ImixIsMatrix(x: A.Word)
    ensures var y := A.Imix(x);
            && Poly(y.a) == Dot(AES_POLY, 14, 11, 13, 9, x) && Poly(y.b) == Dot(AES_POLY, 9, 14, 11, 13, x)
            && Poly(y.c) == Dot(AES_POLY, 13, 9, 14, 11, x) && Poly(y.d) == Dot(AES_POLY, 11, 13, 9, 14, x)
  {
    hide Poly, A.Bx, A.Xt, Add, Times, A.Xor, A.Nine, A.Eleven, A.Thirteen, A.Fourteen, A.Imix;
    LargeTimes(x.a);
    LargeTimes(x.b);
    LargeTimes(x.c);
    LargeTimes(x.d);
    A.ItIsImix(x);
    SumBytes(A.It(0, x.a), A.It(1, x.b), A.It(2, x.c), A.It(3, x.d));
  }

  /** The tables of Anubis multiply a row by its Hadamard matrix. */
  lemma {:induction false} ThetaIsMatrix(x: A.Word)
    ensures var y := N.Theta(x);
            && Poly(y.a) == Dot(ANUBIS_POLY, 1, 2, 4, 6, x) && Poly(y.b) == Dot(ANUBIS_POLY, 2, 1, 6, 4, x)
            && Poly(y.c) == Dot(ANUBIS_POLY, 4, 6, 1, 2, x) && Poly(y.d) == Dot(ANUBIS_POLY, 6, 4, 2, 1, x)
  {
    hide Poly, A.Bx, N.Xt, Add, Times, A.Xor, N.Six;
    AnubisTimes(x.a);
    AnubisTimes(x.b);
    AnubisTimes(x.c);
    AnubisTimes(x.d);
    SumBytes(N.Table(0, x.a), N.Table(1, x.b), N.Table(2, x.c), N.Table(3, x.d));
  }

  // ---------------------------------------------------------------- Rows and columns

  /** Row `r` of a column. */
  function ByteOf(x: A.Word, r: nat): bv8
    requires r < 4
  {
    if r == 0 then x.a else if r == 1 then x.b else if r == 2 then x.c else x.d
  }

  function ColumnOf(x: A.Block, c: nat): A.Word
    requires c < 4
  {
    if c == 0 then x.w0 else if c == 1 then x.w1 else if c == 2 then x.w2 else x.w3
  }

  function At(x: A.Block, r: nat, c: nat): bv8
    requires r < 4 && c < 4
  {
    ByteOf(ColumnOf(x, c), r)
  }

  /** Row `r` turns by `r` columns, section 5.1.2 of FIPS 197, and back, section 5.3.1. */
  lemma {:induction false} RowsTurn(x: A.Block, r: nat, c: nat)
    requires r < 4 && c < 4
    ensures At(A.ShiftRows(x), r, c) == At(x, r, (c + r) % 4)
    ensures At(A.UnshiftRows(x), r, (c + r) % 4) == At(x, r, c)
  {
    assert r == 0 || r == 1 || r == 2 || r == 3;
    assert c == 0 || c == 1 || c == 2 || c == 3;
  }

  /** Tau exchanges rows and columns. */
  lemma {:induction false} TauTransposes(x: A.Block, r: nat, c: nat)
    requires r < 4 && c < 4
    ensures At(N.Tau(x), r, c) == At(x, c, r)
  {
    assert r == 0 || r == 1 || r == 2 || r == 3;
    assert c == 0 || c == 1 || c == 2 || c == 3;
  }

  // ---------------------------------------------------------------- Chains of states

  /** The states of the cipher in section 5.1 of FIPS 197: the first key is added, then in each round bytes are
      substituted, rows turned, columns mixed and the round's key added. */
  ghost predicate CipherStates(s: A.Sub, key: seq<A.Block>, x: A.Block, states: seq<A.Block>) {
    && 2 <= |key| && |states| == |key| - 1 && states[0] == A.XorB(x, key[0])
    && forall i :: 0 < i < |states| ==> states[i] == A.XorB(A.MixB(A.ShiftRows(A.SubB(s, states[i - 1]))), key[i])
  }

  lemma {:induction false} StateIs(s: A.Sub, key: seq<A.Block>, x: A.Block, states: seq<A.Block>, n: nat)
    requires CipherStates(s, key, x, states) && n < |states|
    ensures states[n] == A.Forward(s, key, x, n)
  {
    hide A.XorB, A.MixB, A.ShiftRows, A.SubB;
    if n != 0 { StateIs(s, key, x, states, n - 1); }
  }

  /** The last round does not mix. */
  lemma {:induction false} EncryptIs(s: A.Sub, key: seq<A.Block>, x: A.Block, states: seq<A.Block>)
    requires CipherStates(s, key, x, states)
    ensures A.Encrypt(s, key, x) == A.XorB(A.ShiftRows(A.SubB(s, states[|key| - 2])), key[|key| - 1])
  {
    hide A.XorB, A.MixB, A.ShiftRows, A.SubB;
    StateIs(s, key, x, states, |key| - 2);
  }

  /** The states of Anubis: bytes are substituted, the square transposed, rows diffused and the round's key added. */
  ghost predicate AnubisStates(s: A.Sub, key: seq<A.Block>, x: A.Block, states: seq<A.Block>) {
    && 2 <= |key| && |states| == |key| - 1 && states[0] == A.XorB(x, key[0])
    && forall i :: 0 < i < |states| ==> states[i] == A.XorB(N.ThetaB(N.Tau(A.SubB(s, states[i - 1]))), key[i])
  }

  lemma {:induction false} AnubisStateIs(s: A.Sub, key: seq<A.Block>, x: A.Block, states: seq<A.Block>, n: nat)
    requires AnubisStates(s, key, x, states) && n < |states|
    ensures states[n] == N.Rounds(s, key, x, n)
  {
    hide A.XorB, N.ThetaB, N.Tau, A.SubB;
    if n != 0 { AnubisStateIs(s, key, x, states, n - 1); }
  }

  lemma {:induction false} CryptIs(s: A.Sub, key: seq<A.Block>, x: A.Block, states: seq<A.Block>)
    requires AnubisStates(s, key, x, states)
    ensures N.Crypt(s, key, x) == A.XorB(N.Tau(A.SubB(s, states[|key| - 2])), key[|key| - 1])
  {
    hide A.XorB, N.ThetaB, N.Tau, A.SubB;
    AnubisStateIs(s, key, x, states, |key| - 2);
  }

  /** What goes into word `i` from the word before it, section 5.2 of FIPS 197: once a key length that word turned,
      substituted and with the round's constant; for 256-bit keys it is substituted in between as well. */
  function FromLast(s: A.Sub, nk: nat, t: A.Word, i: nat): A.Word
    requires A.KeyWords(nk) && nk <= i < 11 * nk
  {
    if i % nk == 0 then A.Word(A.Bx(s(t.b), A.RCO_TAB[i / nk - 1]), s(t.c), s(t.d), s(t.a))
    else if nk == 8 && i % 8 == 4 then A.SubW(s, t) else t
  }

  /** A key schedule: each word is the one a key length before with what comes from the last. */
  ghost predicate IsSchedule(s: A.Sub, key: seq<A.Word>, w: seq<A.Word>) {
    && A.KeyWords(|key|) && |key| <= |w| <= 11 * |key| && w[..|key|] == key
    && forall i :: |key| <= i < |w| ==> w[i] == A.Xor(w[i - |key|], FromLast(s, |key|, w[i - 1], i))
  }

  lemma {:induction false} FirstWords(s: A.Sub, key: seq<A.Word>, w: seq<A.Word>, i: nat)
    requires IsSchedule(s, key, w) && i < |key|
    ensures w[i] == A.Schedule(s, key, i)
  {
    assert w[i] == w[..|key|][i];
  }

  /** There is one schedule, and it is the one the loops fill in. */
  lemma {:induction false} ScheduleIs(s: A.Sub, key: seq<A.Word>, w: seq<A.Word>, i: nat)
    requires IsSchedule(s, key, w) && i < |w|
    ensures w[i] == A.Schedule(s, key, i)
  {
    hide A.Xor, FromLast, A.Schedule;
    if i < |key| {
      FirstWords(s, key, w, i);
    } else {
      ScheduleIs(s, key, w, i - 1);
      ScheduleIs(s, key, w, i - |key|);
      NextWord(s, key, i);
    }
  }

  lemma {:induction false} NextWord(s: A.Sub, key: seq<A.Word>, i: nat)
    requires A.KeyWords(|key|) && |key| <= i < 11 * |key|
    ensures A.Schedule(s, key, i) ==
            A.Xor(A.Schedule(s, key, i - |key|), FromLast(s, |key|, A.Schedule(s, key, i - 1), i))
  {
    hide A.Xor, A.Bx, A.RconByte, A.SubW;
    if i % |key| == 0 { RoundWord(s, A.Schedule(s, key, i - 1), i / |key| - 1); }
  }

  lemma {:induction false} RoundWord(s: A.Sub, t: A.Word, n: nat)
    requires n < 10
    ensures A.Word(A.Bx(s(t.b), A.RCO_TAB[n]), s(t.c), s(t.d), s(t.a)) ==
            A.Xor(A.SubW(s, A.Ror8(t)), A.Word(A.RconByte(n), 0, 0, 0))
  {
    A.RcoIsRcon(n);
    hide A.Bx, A.RconByte;
    A.BxLaws(s(t.c), 0, 0);
    A.BxLaws(s(t.d), 0, 0);
    A.BxLaws(s(t.a), 0, 0);
  }
}
