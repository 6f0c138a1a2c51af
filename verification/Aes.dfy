/** The block cipher of crypto/aes_generic.c. The tables are given by a byte substitution `s` and its inverse
    `si`, about which nothing else is known; the column mix is built from the doubling `Xt`. */
module Aes {

  /** A 32-bit word by its bytes, lowest first. */
  datatype Word = Word(a: bv8, b: bv8, c: bv8, d: bv8)

  datatype Block = Block(w0: Word, w1: Word, w2: Word, w3: Word)

  // ---------------------------------------------------------------- Words

  function Bx(x: bv8, y: bv8): bv8 { x ^ y }

  function Xor(x: Word, y: Word): Word { Word(Bx(x.a, y.a), Bx(x.b, y.b), Bx(x.c, y.c), Bx(x.d, y.d)) }

  function XorB(x: Block, y: Block): Block { Block(Xor(x.w0, y.w0), Xor(x.w1, y.w1), Xor(x.w2, y.w2), Xor(x.w3, y.w3)) }

  /** Multiplication by X, section 4.2.1 of FIPS 197. */
  function Xt(b: bv8): bv8 { ((b & 0x7f) << 1) ^ (((b & 0x80) >> 7) * 0x1b) }

  function Star(x: Word): Word { Word(Xt(x.a), Xt(x.b), Xt(x.c), Xt(x.d)) }

  /** `ror32` by one, two and three bytes. */
  function Ror8(x: Word): Word { Word(x.b, x.c, x.d, x.a) }

  function Ror16(x: Word): Word { Word(x.c, x.d, x.a, x.b) }

  function Ror24(x: Word): Word { Word(x.d, x.a, x.b, x.c) }

  /** `imix_col`. */
  function Imix(x: Word): Word {
    var u := Star(x);
    var v := Star(u);
    var w := Star(v);
    var t := Xor(w, x);
    Xor(Xor(Xor(Xor(Xor(u, v), w), Ror8(Xor(u, t))), Ror16(Xor(v, t))), Ror24(t))
  }

  function ImixB(x: Block): Block { Block(Imix(x.w0), Imix(x.w1), Imix(x.w2), Imix(x.w3)) }

  /** Column `p` of the tables: each table is the one before rotated up by a byte. */
  function Ft(p: nat, s: bv8): Word
    requires p < 4
  {
    var x, y := Xt(s), Bx(Xt(s), s);
    if p == 0 then Word(x, s, s, y) else if p == 1 then Word(y, x, s, s)
    else if p == 2 then Word(s, y, x, s) else Word(s, s, y, x)
  }

  function Nine(s: bv8): bv8 { Bx(Xt(Xt(Xt(s))), s) }

  function Eleven(s: bv8): bv8 { Bx(Xt(s), Nine(s)) }

  function Thirteen(s: bv8): bv8 { Bx(Xt(Xt(s)), Nine(s)) }

  function Fourteen(s: bv8): bv8 { Bx(Bx(Xt(s), Xt(Xt(s))), Xt(Xt(Xt(s)))) }

  function It(p: nat, s: bv8): Word
    requires p < 4
  {
    var n, e, t, f := Nine(s), Eleven(s), Thirteen(s), Fourteen(s);
    if p == 0 then Word(f, n, t, e) else if p == 1 then Word(e, f, n, t)
    else if p == 2 then Word(t, e, f, n) else Word(n, t, e, f)
  }

  /** The column mix of a word, as the forward tables compute it. */
  function Mix(x: Word): Word { Xor(Xor(Xor(Ft(0, x.a), Ft(1, x.b)), Ft(2, x.c)), Ft(3, x.d)) }

  // ---------------------------------------------------------------- Algebra

  lemma {:induction false} XtLinear(x: bv8, y: bv8)
    ensures Xt(Bx(x, y)) == Bx(Xt(x), Xt(y))
  {
  }

  lemma {:induction false} StarLinear(x: Word, y: Word)
    ensures Star(Xor(x, y)) == Xor(Star(x), Star(y))
  {
    hide Xt, Bx;
    XtLinear(x.a, y.a);
    XtLinear(x.b, y.b);
    XtLinear(x.c, y.c);
    XtLinear(x.d, y.d);
  }

  lemma {:induction false} BxLaws(x: bv8, y: bv8, z: bv8)
    ensures Bx(x, y) == Bx(y, x) && Bx(Bx(x, y), z) == Bx(x, Bx(y, z)) && Bx(Bx(x, y), y) == x && Bx(x, 0) == x
  {
  }

  /** Exclusive or is commutative and associative, and every word undoes itself. */
  lemma {:induction false} XorLaws(x: Word, y: Word, z: Word)
    ensures Xor(x, y) == Xor(y, x)
    ensures Xor(Xor(x, y), z) == Xor(x, Xor(y, z))
    ensures Xor(Xor(x, y), y) == x
  {
    hide Bx;
    BxLaws(x.a, y.a, z.a);
    BxLaws(x.b, y.b, z.b);
    BxLaws(x.c, y.c, z.c);
    BxLaws(x.d, y.d, z.d);
  }

  /** Two sums of two, regrouped. */
  lemma {:induction false} Regroup(a: Word, b: Word, c: Word, d: Word)
    ensures Xor(Xor(a, b), Xor(c, d)) == Xor(Xor(a, c), Xor(b, d))
  {
    hide Xor;
    XorLaws(a, b, Xor(c, d));
    XorLaws(b, c, d);
    XorLaws(c, b, d);
    XorLaws(a, c, Xor(b, d));
  }

  lemma {:induction false} RorLinear(x: Word, y: Word)
    ensures Ror8(Xor(x, y)) == Xor(Ror8(x), Ror8(y))
    ensures Ror16(Xor(x, y)) == Xor(Ror16(x), Ror16(y))
    ensures Ror24(Xor(x, y)) == Xor(Ror24(x), Ror24(y))
  {
    hide Bx;
  }

  /** The inverse column mix is linear. */
  lemma {:induction false} ImixLinear(x: Word, y: Word)
    ensures Imix(Xor(x, y)) == Xor(Imix(x), Imix(y))
  {
    hide Xor, Star, Ror8, Ror16, Ror24;
    var u1, u2 := Star(x), Star(y);
    var v1, v2 := Star(u1), Star(u2);
    var w1, w2 := Star(v1), Star(v2);
    var t1, t2 := Xor(w1, x), Xor(w2, y);
    StarLinear(x, y);
    StarLinear(u1, u2);
    StarLinear(v1, v2);
    Regroup(w1, w2, x, y);
    Regroup(u1, u2, v1, v2);
    Regroup(Xor(u1, v1), Xor(u2, v2), w1, w2);
    Regroup(u1, u2, t1, t2);
    Regroup(v1, v2, t1, t2);
    RorLinear(Xor(u1, t1), Xor(u2, t2));
    RorLinear(Xor(v1, t1), Xor(v2, t2));
    RorLinear(t1, t2);
    var p1, p2 := Xor(Xor(u1, v1), w1), Xor(Xor(u2, v2), w2);
    var q1, q2 := Ror8(Xor(u1, t1)), Ror8(Xor(u2, t2));
    Regroup(p1, p2, q1, q2);
    var r1, r2 := Ror16(Xor(v1, t1)), Ror16(Xor(v2, t2));
    Regroup(Xor(p1, q1), Xor(p2, q2), r1, r2);
    Regroup(Xor(Xor(p1, q1), r1), Xor(Xor(p2, q2), r2), Ror24(t1), Ror24(t2));
  }

  function At(p: nat, s: bv8): Word
    requires p < 4
  {
    Word(if p == 0 then s else 0, if p == 1 then s else 0, if p == 2 then s else 0, if p == 3 then s else 0)
  }

  /** One byte of the inverse column mix. */
  function ImixByte(x0: bv8, x1: bv8, x2: bv8, x3: bv8): bv8 {
    Bx(Bx(Bx(Fourteen(x0), Bx(Xt(x1), Nine(x1))), Bx(Xt(Xt(x2)), Nine(x2))), Nine(x3))
  }

  lemma {:induction false} ImixBytes(x: Word)
    ensures Imix(x) == Word(ImixByte(x.a, x.b, x.c, x.d), ImixByte(x.b, x.c, x.d, x.a),
                            ImixByte(x.c, x.d, x.a, x.b), ImixByte(x.d, x.a, x.b, x.c))
  {
    hide Bx, Xt;
  }

  /** The coefficients of the two mixes multiply to one on the diagonal and cancel elsewhere. */
  lemma {:induction false} Cancels(s: bv8)
    ensures var x, y := Xt(s), Bx(Xt(s), s);
            && ImixByte(x, s, s, y) == s && ImixByte(s, s, y, x) == 0 && ImixByte(s, y, x, s) == 0
            && ImixByte(y, x, s, s) == 0
  {
  }

  /** One table column is undone by the inverse mix. */
  lemma {:induction false} ImixColumn(p: nat, s: bv8)
    requires p < 4
    ensures Imix(Ft(p, s)) == At(p, s)
  {
    hide Bx, Xt, ImixByte, Imix;
    Cancels(s);
    var x, y := Xt(s), Bx(Xt(s), s);
    if p == 0 {
      ImixBytes(Word(x, s, s, y));
    } else if p == 1 {
      ImixBytes(Word(y, x, s, s));
    } else if p == 2 {
      ImixBytes(Word(s, y, x, s));
    } else {
      ImixBytes(Word(s, s, y, x));
    }
  }

  lemma {:induction false} Split(x: Word)
    ensures Xor(Xor(Xor(At(0, x.a), At(1, x.b)), At(2, x.c)), At(3, x.d)) == x
  {
    hide Bx;
    BxLaws(x.a, 0, 0);
    BxLaws(0, x.b, 0);
    BxLaws(0, x.c, 0);
    BxLaws(0, x.d, 0);
    BxLaws(x.b, 0, 0);
    BxLaws(x.c, 0, 0);
    BxLaws(x.d, 0, 0);
    BxLaws(0, 0, 0);
  }

  /** The inverse column mix undoes the column mix. */
  lemma {:induction false} ImixMix(x: Word)
    ensures Imix(Mix(x)) == x
  {
    hide Imix, Xor, Ft, At;
    var f0, f1, f2, f3 := Ft(0, x.a), Ft(1, x.b), Ft(2, x.c), Ft(3, x.d);
    ImixLinear(Xor(Xor(f0, f1), f2), f3);
    ImixLinear(Xor(f0, f1), f2);
    ImixLinear(f0, f1);
    ImixColumn(0, x.a);
    ImixColumn(1, x.b);
    ImixColumn(2, x.c);
    ImixColumn(3, x.d);
    Split(x);
  }

  lemma {:induction false} ItByte(x0: bv8, x1: bv8, x2: bv8, x3: bv8)
    ensures ImixByte(x0, x1, x2, x3) == Bx(Bx(Bx(Fourteen(x0), Eleven(x1)), Thirteen(x2)), Nine(x3))
    ensures Bx(Bx(Bx(Fourteen(x0), Eleven(x1)), Thirteen(x2)), Nine(x3)) ==
            Bx(Bx(Bx(Nine(x3), Fourteen(x0)), Eleven(x1)), Thirteen(x2))
    ensures Bx(Bx(Bx(Fourteen(x0), Eleven(x1)), Thirteen(x2)), Nine(x3)) ==
            Bx(Bx(Bx(Thirteen(x2), Nine(x3)), Fourteen(x0)), Eleven(x1))
    ensures Bx(Bx(Bx(Fourteen(x0), Eleven(x1)), Thirteen(x2)), Nine(x3)) ==
            Bx(Bx(Bx(Eleven(x1), Thirteen(x2)), Nine(x3)), Fourteen(x0))
  {
    SumTurns(Fourteen(x0), Eleven(x1), Thirteen(x2), Nine(x3));
  }

  lemma {:induction false} SumTurns(p: bv8, q: bv8, r: bv8, t: bv8)
    ensures Bx(Bx(Bx(p, q), r), t) == Bx(Bx(Bx(t, p), q), r) == Bx(Bx(Bx(r, t), p), q) == Bx(Bx(Bx(q, r), t), p)
  {
    hide Bx;
    SumTurn(p, q, r, t);
    SumTurn(t, p, q, r);
    SumTurn(r, t, p, q);
  }

  lemma {:induction false} SumTurn(p: bv8, q: bv8, r: bv8, t: bv8)
    ensures Bx(Bx(Bx(p, q), r), t) == Bx(Bx(Bx(t, p), q), r)
  {
    hide Bx;
    BxLaws(Bx(Bx(p, q), r), t, 0);
    BxLaws(t, Bx(p, q), r);
    BxLaws(t, p, q);
  }

  /** The inverse tables compute the inverse column mix. */
  lemma {:induction false} ItIsImix(x: Word)
    ensures Xor(Xor(Xor(It(0, x.a), It(1, x.b)), It(2, x.c)), It(3, x.d)) == Imix(x)
  {
    hide Bx, Xt, ImixByte, Imix, Nine, Eleven, Thirteen, Fourteen;
    ImixBytes(x);
    ItByte(x.a, x.b, x.c, x.d);
    ItByte(x.b, x.c, x.d, x.a);
    ItByte(x.c, x.d, x.a, x.b);
    ItByte(x.d, x.a, x.b, x.c);
  }

  // ---------------------------------------------------------------- Packed words

  function Byte32(b: bv8): bv32 { b as bv32 }

  /** The word as the machine holds it. */
  function Pack(x: Word): bv32 { Byte32(x.a) | (Byte32(x.b) << 8) | (Byte32(x.c) << 16) | (Byte32(x.d) << 24) }

  /** `star_x` on a packed word. */
  function Star32(x: bv32): bv32 { ((x & 0x7f7f7f7f) << 1) ^ (((x & 0x80808080) >> 7) * 0x1b) }

  /** The doubling of a packed word doubles its four bytes, without carries between them. */
  lemma {:induction false} StarPacked(x: Word)
    ensures Star32(Pack(x)) == Pack(Star(x))
  {
  }

  // ---------------------------------------------------------------- Rounds

  type Sub = bv8 -> bv8

  function SubW(s: Sub, x: Word): Word { Word(s(x.a), s(x.b), s(x.c), s(x.d)) }

  function SubB(s: Sub, x: Block): Block { Block(SubW(s, x.w0), SubW(s, x.w1), SubW(s, x.w2), SubW(s, x.w3)) }

  /** Byte `n` of the new word comes from the word `n` further on. */
  function ShiftRows(x: Block): Block {
    Block(Word(x.w0.a, x.w1.b, x.w2.c, x.w3.d), Word(x.w1.a, x.w2.b, x.w3.c, x.w0.d),
          Word(x.w2.a, x.w3.b, x.w0.c, x.w1.d), Word(x.w3.a, x.w0.b, x.w1.c, x.w2.d))
  }

  function UnshiftRows(x: Block): Block {
    Block(Word(x.w0.a, x.w3.b, x.w2.c, x.w1.d), Word(x.w1.a, x.w0.b, x.w3.c, x.w2.d),
          Word(x.w2.a, x.w1.b, x.w0.c, x.w3.d), Word(x.w3.a, x.w2.b, x.w1.c, x.w0.d))
  }

  function MixB(x: Block): Block { Block(Mix(x.w0), Mix(x.w1), Mix(x.w2), Mix(x.w3)) }

  function LastRound(s: Sub, x: Block, k: Block): Block { XorB(ShiftRows(SubB(s, x)), k) }

  function FullRound(s: Sub, x: Block, k: Block): Block { XorB(MixB(ShiftRows(SubB(s, x))), k) }

  function LastUnround(si: Sub, x: Block, k: Block): Block { XorB(UnshiftRows(SubB(si, x)), k) }

  function FullUnround(si: Sub, x: Block, k: Block): Block { XorB(ImixB(UnshiftRows(SubB(si, x))), k) }

  ghost predicate Inverse(s: Sub, si: Sub) { forall b: bv8 :: si(s(b)) == b }

  lemma {:induction false} UnshiftShift(s: Sub, si: Sub, x: Block)
    requires Inverse(s, si)
    ensures UnshiftRows(SubB(si, ShiftRows(SubB(s, x)))) == x
  {
  }

  lemma {:induction false} XorBLaws(x: Block, y: Block)
    ensures XorB(XorB(x, y), y) == x
  {
    hide Xor;
    XorLaws(x.w0, y.w0, y.w0);
    XorLaws(x.w1, y.w1, y.w1);
    XorLaws(x.w2, y.w2, y.w2);
    XorLaws(x.w3, y.w3, y.w3);
  }

  lemma {:induction false} ImixBLinear(x: Block, y: Block)
    ensures ImixB(XorB(x, y)) == XorB(ImixB(x), ImixB(y))
  {
    hide Xor, Imix;
    ImixLinear(x.w0, y.w0);
    ImixLinear(x.w1, y.w1);
    ImixLinear(x.w2, y.w2);
    ImixLinear(x.w3, y.w3);
  }

  lemma {:induction false} ImixBMixB(x: Block)
    ensures ImixB(MixB(x)) == x
  {
    hide Mix, Imix;
    ImixMix(x.w0);
    ImixMix(x.w1);
    ImixMix(x.w2);
    ImixMix(x.w3);
  }

  // ---------------------------------------------------------------- Inversion

  /** The state after the first addition and `n` full rounds. */
  function Forward(s: Sub, key: seq<Block>, x: Block, n: nat): Block
    requires n < |key|
  {
    if n == 0 then XorB(x, key[0]) else FullRound(s, Forward(s, key, x, n - 1), key[n])
  }

  function Backward(si: Sub, key: seq<Block>, x: Block, n: nat): Block
    requires n < |key|
  {
    if n == 0 then XorB(x, key[0]) else FullUnround(si, Backward(si, key, x, n - 1), key[n])
  }

  function Encrypt(s: Sub, key: seq<Block>, x: Block): Block
    requires 2 <= |key|
  {
    LastRound(s, Forward(s, key, x, |key| - 2), key[|key| - 1])
  }

  function Decrypt(si: Sub, key: seq<Block>, x: Block): Block
    requires 2 <= |key|
  {
    LastUnround(si, Backward(si, key, x, |key| - 2), key[|key| - 1])
  }

  /** The decryption schedule of section 5.3.5 of FIPS 197: reversed, with the inverse mix on all but the ends. */
  ghost predicate Equivalent(enc: seq<Block>, dec: seq<Block>) {
    && |dec| == |enc| && 2 <= |enc|
    && dec[0] == enc[|enc| - 1] && dec[|enc| - 1] == enc[0]
    && forall r :: 0 < r < |enc| - 1 ==> dec[r] == ImixB(enc[|enc| - 1 - r])
  }

  /** After `n` inverse rounds the state is the substituted and shifted state from `n` rounds before the end. */
  lemma {:induction false} BackwardMeets(s: Sub, si: Sub, enc: seq<Block>, dec: seq<Block>, x: Block, n: nat)
    requires Inverse(s, si) && Equivalent(enc, dec) && n < |enc| - 1
    ensures Backward(si, dec, Encrypt(s, enc, x), n) == ShiftRows(SubB(s, Forward(s, enc, x, |enc| - 2 - n)))
  {
    hide XorB, ShiftRows, UnshiftRows, SubB, MixB, ImixB, Inverse;
    if n == 0 {
      XorBLaws(ShiftRows(SubB(s, Forward(s, enc, x, |enc| - 2))), enc[|enc| - 1]);
    } else {
      BackwardMeets(s, si, enc, dec, x, n - 1);
      var e := Forward(s, enc, x, |enc| - 1 - n);
      UnshiftShift(s, si, e);
      var m := ShiftRows(SubB(s, Forward(s, enc, x, |enc| - 2 - n)));
      ImixBLinear(MixB(m), enc[|enc| - 1 - n]);
      ImixBMixB(m);
      XorBLaws(m, ImixB(enc[|enc| - 1 - n]));
    }
  }

  /** Decrypting with the derived schedule undoes encryption, for every number of rounds, every key schedule and
      every block. */
  lemma {:induction false} DecryptUndoes(s: Sub, si: Sub, enc: seq<Block>, dec: seq<Block>, x: Block)
    requires Inverse(s, si) && Equivalent(enc, dec)
    ensures Decrypt(si, dec, Encrypt(s, enc, x)) == x
  {
    hide XorB, ShiftRows, UnshiftRows, SubB, MixB, ImixB, Inverse;
    BackwardMeets(s, si, enc, dec, x, |enc| - 2);
    UnshiftShift(s, si, XorB(x, enc[0]));
    XorBLaws(x, enc[0]);
  }

  // ---------------------------------------------------------------- Key schedule

  function RconByte(n: nat): bv8 { if n == 0 then 1 else Xt(RconByte(n - 1)) }

  const RCO_TAB: seq<bv8> := [1, 2, 4, 8, 16, 32, 64, 128, 27, 54]

  /** The round constants of the table are the powers of X. */
  lemma {:induction false} RcoIsRcon(i: nat)
    requires i < 10
    ensures RCO_TAB[i] == RconByte(i)
  {
    if 0 < i {
      RcoIsRcon(i - 1);
      RcoDoubles(i - 1);
    }
  }

  lemma {:induction false} RcoDoubles(i: nat)
    requires i < 9
    ensures RCO_TAB[i + 1] == Xt(RCO_TAB[i])
  {
  }

  /** `ls_box`: the four tables place one substituted byte each. */
  function LsBox(s: Sub, x: Word): Word {
    Xor(Xor(Xor(At(0, s(x.a)), At(1, s(x.b))), At(2, s(x.c))), At(3, s(x.d)))
  }

  predicate KeyWords(nk: nat) { nk == 4 || nk == 6 || nk == 8 }

  /** The single recurrence of section 5.2 of FIPS 197, on little-endian words. */
  function Schedule(s: Sub, key: seq<Word>, i: nat): Word
    requires KeyWords(|key|)
  {
    var nk := |key|;
    if i < nk then key[i]
    else
      var t := Schedule(s, key, i - 1);
      Xor(Schedule(s, key, i - nk),
          if i % nk == 0 then Xor(SubW(s, Ror8(t)), Word(RconByte(i / nk - 1), 0, 0, 0))
          else if nk > 6 && i % nk == 4 then SubW(s, t)
          else t)
  }

  lemma {:induction false} LsBoxIs(s: Sub, x: Word)
    ensures LsBox(s, x) == SubW(s, x)
  {
    Split(SubW(s, x));
  }

  /** Adding the word one key length back to `t` gives word `j` of the schedule. */
  ghost predicate Links(s: Sub, key: seq<Word>, j: nat, t: Word)
    requires KeyWords(|key|) && |key| <= j
  {
    Schedule(s, key, j) == Xor(t, Schedule(s, key, j - |key|))
  }

  lemma {:induction false} PlainLink(s: Sub, key: seq<Word>, i: nat, c: nat)
    requires KeyWords(|key|) && 0 < c < |key| && !(|key| == 8 && c == 4)
    ensures Links(s, key, |key| * i + |key| + c, Schedule(s, key, |key| * i + |key| + c - 1))
  {
    hide Xor, SubW;
    Remainder(|key|, i, c);
    var j := |key| * i + |key| + c;
    XorLaws(Schedule(s, key, j - |key|), Schedule(s, key, j - 1), key[0]);
  }

  lemma {:induction false} Remainder(nk: nat, i: nat, c: nat)
    requires KeyWords(nk) && c < nk
    ensures (nk * i + nk + c) % nk == c
  {
    if nk == 4 {
      Remainder4(i, c);
    } else if nk == 6 {
      Remainder6(i, c);
    } else {
      Remainder8(i, c);
    }
  }

  lemma {:induction false} Remainder4(i: nat, c: nat)
    requires c < 4
    ensures (4 * i + 4 + c) % 4 == c
  {
  }

  lemma {:induction false} Remainder6(i: nat, c: nat)
    requires c < 6
    ensures (6 * i + 6 + c) % 6 == c
  {
  }

  lemma {:induction false} Remainder8(i: nat, c: nat)
    requires c < 8
    ensures (8 * i + 8 + c) % 8 == c
  {
  }

  lemma {:induction false} RotLink(s: Sub, key: seq<Word>, m: nat)
    requires KeyWords(|key|) && m < 10
    ensures Links(s, key, |key| * m + |key|,
                  Xor(LsBox(s, Ror8(Schedule(s, key, |key| * m + |key| - 1))), Word(RCO_TAB[m], 0, 0, 0)))
  {
    hide *;
    Multiple(|key|, m);
    RotLinkAt(s, key, |key| * m + |key|, m);
  }

  /** The same at word `j`, which begins the copy of the key after the first `m`. */
  lemma {:induction false} RotLinkAt(s: Sub, key: seq<Word>, j: nat, m: nat)
    requires KeyWords(|key|) && m < 10 && |key| <= j && j % |key| == 0 && j / |key| - 1 == m
    ensures Links(s, key, j, Xor(LsBox(s, Ror8(Schedule(s, key, j - 1))), Word(RCO_TAB[m], 0, 0, 0)))
  {
    hide Xor, SubW, LsBox, RconByte;
    var t := Schedule(s, key, j - 1);
    LsBoxIs(s, Ror8(t));
    RcoIsRcon(m);
    XorLaws(Schedule(s, key, j - |key|), Xor(SubW(s, Ror8(t)), Word(RconByte(m), 0, 0, 0)), t);
  }

  lemma {:induction false} Multiple(nk: nat, m: nat)
    requires KeyWords(nk)
    ensures (nk * m + nk) % nk == 0 && (nk * m + nk) / nk - 1 == m
  {
    if nk == 4 {
      assert (4 * m + 4) % 4 == 0;
    } else if nk == 6 {
      assert (6 * m + 6) % 6 == 0;
    } else {
      assert (8 * m + 8) % 8 == 0;
    }
  }

  lemma {:induction false} HalfLink(s: Sub, key: seq<Word>, j: nat)
    requires |key| == 8 && 8 <= j && j % 8 == 4
    ensures Links(s, key, j, LsBox(s, Schedule(s, key, j - 1)))
  {
    hide Xor, SubW, LsBox;
    LsBoxIs(s, Schedule(s, key, j - 1));
    XorLaws(Schedule(s, key, j - 8), SubW(s, Schedule(s, key, j - 1)), key[0]);
  }

  /** The first `n` words are those of the recurrence. */
  ghost predicate Filled(s: Sub, key: seq<Word>, a: seq<Word>, n: nat)
    requires KeyWords(|key|)
  {
    n <= |a| && forall i :: 0 <= i < n ==> a[i] == Schedule(s, key, i)
  }

  /** One line of the unrolled loops: add the word one key length back, and store. */
  method Chain(s: Sub, ghost key: seq<Word>, nk: nat, a: array<Word>, j: nat, t: Word) returns (r: Word)
    requires nk == |key| && KeyWords(nk) && nk <= j < a.Length
    requires Filled(s, key, a[..], j) && Links(s, key, j, t)
    modifies a
    ensures Filled(s, key, a[..], j + 1) && r == Schedule(s, key, j)
  {
    hide Schedule, Xor;
    r := Xor(t, a[j - nk]);
    a[j] := r;
  }

  method Loop4(s: Sub, ghost key: seq<Word>, a: array<Word>, i: nat, t0: Word) returns (t: Word)
    requires |key| == 4 && i < 10 && 4 * i + 8 <= a.Length && Filled(s, key, a[..], 4 * i + 4)
    requires t0 == Schedule(s, key, 4 * i + 3)
    modifies a
    ensures Filled(s, key, a[..], 4 * i + 8) && t == Schedule(s, key, 4 * i + 7)
  {
    hide Schedule, Xor, LsBox, Ror8, Filled, Links;
    t := Xor(LsBox(s, Ror8(t0)), Word(RCO_TAB[i], 0, 0, 0));
    RotLink(s, key, i);
    t := Chain(s, key, 4, a, 4 * i + 4, t);
    PlainLink(s, key, i, 1);
    t := Chain(s, key, 4, a, 4 * i + 5, t);
    PlainLink(s, key, i, 2);
    t := Chain(s, key, 4, a, 4 * i + 6, t);
    PlainLink(s, key, i, 3);
    t := Chain(s, key, 4, a, 4 * i + 7, t);
  }

  /** The first half of `loop6`. */
  method Loop6Head(s: Sub, ghost key: seq<Word>, a: array<Word>, i: nat, t0: Word) returns (t: Word)
    requires |key| == 6 && i < 10 && 6 * i + 12 <= a.Length && Filled(s, key, a[..], 6 * i + 6)
    requires t0 == Schedule(s, key, 6 * i + 5)
    modifies a
    ensures Filled(s, key, a[..], 6 * i + 9) && t == Schedule(s, key, 6 * i + 8)
  {
    hide Schedule, Xor, LsBox, Ror8, Filled, Links;
    t := Xor(LsBox(s, Ror8(t0)), Word(RCO_TAB[i], 0, 0, 0));
    RotLink(s, key, i);
    t := Chain(s, key, 6, a, 6 * i + 6, t);
    PlainLink(s, key, i, 1);
    t := Chain(s, key, 6, a, 6 * i + 7, t);
    PlainLink(s, key, i, 2);
    t := Chain(s, key, 6, a, 6 * i + 8, t);
  }

  method Loop6(s: Sub, ghost key: seq<Word>, a: array<Word>, i: nat, t0: Word) returns (t: Word)
    requires |key| == 6 && i < 10 && 6 * i + 12 <= a.Length && Filled(s, key, a[..], 6 * i + 6)
    requires t0 == Schedule(s, key, 6 * i + 5)
    modifies a
    ensures Filled(s, key, a[..], 6 * i + 12) && t == Schedule(s, key, 6 * i + 11)
  {
    hide Schedule, Xor, LsBox, Ror8, Filled, Links;
    t := Loop6Head(s, key, a, i, t0);
    PlainLink(s, key, i, 3);
    t := Chain(s, key, 6, a, 6 * i + 9, t);
    PlainLink(s, key, i, 4);
    t := Chain(s, key, 6, a, 6 * i + 10, t);
    PlainLink(s, key, i, 5);
    t := Chain(s, key, 6, a, 6 * i + 11, t);
  }

  method Loop8TopHalf(s: Sub, ghost key: seq<Word>, a: array<Word>, i: nat, t0: Word) returns (t: Word)
    requires |key| == 8 && i < 10 && 8 * i + 12 <= a.Length && Filled(s, key, a[..], 8 * i + 8)
    requires t0 == Schedule(s, key, 8 * i + 7)
    modifies a
    ensures Filled(s, key, a[..], 8 * i + 12) && t == Schedule(s, key, 8 * i + 11)
  {
    hide Schedule, Xor, LsBox, Ror8, Filled, Links;
    t := Xor(LsBox(s, Ror8(t0)), Word(RCO_TAB[i], 0, 0, 0));
    RotLink(s, key, i);
    t := Chain(s, key, 8, a, 8 * i + 8, t);
    PlainLink(s, key, i, 1);
    t := Chain(s, key, 8, a, 8 * i + 9, t);
    PlainLink(s, key, i, 2);
    t := Chain(s, key, 8, a, 8 * i + 10, t);
    PlainLink(s, key, i, 3);
    t := Chain(s, key, 8, a, 8 * i + 11, t);
  }

  method Loop8(s: Sub, ghost key: seq<Word>, a: array<Word>, i: nat, t0: Word) returns (t: Word)
    requires |key| == 8 && i < 10 && 8 * i + 16 <= a.Length && Filled(s, key, a[..], 8 * i + 8)
    requires t0 == Schedule(s, key, 8 * i + 7)
    modifies a
    ensures Filled(s, key, a[..], 8 * i + 16) && t == Schedule(s, key, 8 * i + 15)
  {
    hide Schedule, Xor, LsBox, Ror8, Filled, Links;
    t := Loop8TopHalf(s, key, a, i, t0);
    HalfLink(s, key, 8 * i + 12);
    t := Chain(s, key, 8, a, 8 * i + 12, LsBox(s, t));
    PlainLink(s, key, i, 5);
    t := Chain(s, key, 8, a, 8 * i + 13, t);
    PlainLink(s, key, i, 6);
    t := Chain(s, key, 8, a, 8 * i + 14, t);
    PlainLink(s, key, i, 7);
    t := Chain(s, key, 8, a, 8 * i + 15, t);
  }

  // ---------------------------------------------------------------- The cipher

  /** Words four by four. */
  function Blocks(a: seq<Word>, n: nat): (r: seq<Block>)
    requires 4 * n <= |a|
    ensures |r| == n
  {
    seq(n, r requires 0 <= r < n => Block(a[4 * r], a[4 * r + 1], a[4 * r + 2], a[4 * r + 3]))
  }

  function RoundsOf(keyLength: nat): nat { keyLength / 4 + 6 }

  /** Four rounds of table lookups: `f_nround` and `f_lround`, then `i_nround` and `i_lround`. */
  method Fnround(s: Sub, bi: Block, k: Block) returns (bo: Block)
    ensures bo == FullRound(s, bi, k)
  {
    hide Xor, Ft;
    bo := Block(
      Xor(Xor(Xor(Xor(Ft(0, s(bi.w0.a)), Ft(1, s(bi.w1.b))), Ft(2, s(bi.w2.c))), Ft(3, s(bi.w3.d))), k.w0),
      Xor(Xor(Xor(Xor(Ft(0, s(bi.w1.a)), Ft(1, s(bi.w2.b))), Ft(2, s(bi.w3.c))), Ft(3, s(bi.w0.d))), k.w1),
      Xor(Xor(Xor(Xor(Ft(0, s(bi.w2.a)), Ft(1, s(bi.w3.b))), Ft(2, s(bi.w0.c))), Ft(3, s(bi.w1.d))), k.w2),
      Xor(Xor(Xor(Xor(Ft(0, s(bi.w3.a)), Ft(1, s(bi.w0.b))), Ft(2, s(bi.w1.c))), Ft(3, s(bi.w2.d))), k.w3));
  }

  method Flround(s: Sub, bi: Block, k: Block) returns (bo: Block)
    ensures bo == LastRound(s, bi, k)
  {
    hide Xor, At;
    bo := Block(
      Xor(Xor(Xor(Xor(At(0, s(bi.w0.a)), At(1, s(bi.w1.b))), At(2, s(bi.w2.c))), At(3, s(bi.w3.d))), k.w0),
      Xor(Xor(Xor(Xor(At(0, s(bi.w1.a)), At(1, s(bi.w2.b))), At(2, s(bi.w3.c))), At(3, s(bi.w0.d))), k.w1),
      Xor(Xor(Xor(Xor(At(0, s(bi.w2.a)), At(1, s(bi.w3.b))), At(2, s(bi.w0.c))), At(3, s(bi.w1.d))), k.w2),
      Xor(Xor(Xor(Xor(At(0, s(bi.w3.a)), At(1, s(bi.w0.b))), At(2, s(bi.w1.c))), At(3, s(bi.w2.d))), k.w3));
    var x := ShiftRows(SubB(s, bi));
    Split(x.w0);
    Split(x.w1);
    Split(x.w2);
    Split(x.w3);
  }

  method Inround(si: Sub, bi: Block, k: Block) returns (bo: Block)
    ensures bo == FullUnround(si, bi, k)
  {
    hide Xor, It, Imix;
    bo := Block(
      Xor(Xor(Xor(Xor(It(0, si(bi.w0.a)), It(1, si(bi.w3.b))), It(2, si(bi.w2.c))), It(3, si(bi.w1.d))), k.w0),
      Xor(Xor(Xor(Xor(It(0, si(bi.w1.a)), It(1, si(bi.w0.b))), It(2, si(bi.w3.c))), It(3, si(bi.w2.d))), k.w1),
      Xor(Xor(Xor(Xor(It(0, si(bi.w2.a)), It(1, si(bi.w1.b))), It(2, si(bi.w0.c))), It(3, si(bi.w3.d))), k.w2),
      Xor(Xor(Xor(Xor(It(0, si(bi.w3.a)), It(1, si(bi.w2.b))), It(2, si(bi.w1.c))), It(3, si(bi.w0.d))), k.w3));
    var x := UnshiftRows(SubB(si, bi));
    ItIsImix(x.w0);
    ItIsImix(x.w1);
    ItIsImix(x.w2);
    ItIsImix(x.w3);
  }

  method Ilround(si: Sub, bi: Block, k: Block) returns (bo: Block)
    ensures bo == LastUnround(si, bi, k)
  {
    hide Xor, At;
    bo := Block(
      Xor(Xor(Xor(Xor(At(0, si(bi.w0.a)), At(1, si(bi.w3.b))), At(2, si(bi.w2.c))), At(3, si(bi.w1.d))), k.w0),
      Xor(Xor(Xor(Xor(At(0, si(bi.w1.a)), At(1, si(bi.w0.b))), At(2, si(bi.w3.c))), At(3, si(bi.w2.d))), k.w1),
      Xor(Xor(Xor(Xor(At(0, si(bi.w2.a)), At(1, si(bi.w1.b))), At(2, si(bi.w0.c))), At(3, si(bi.w3.d))), k.w2),
      Xor(Xor(Xor(Xor(At(0, si(bi.w3.a)), At(1, si(bi.w2.b))), At(2, si(bi.w1.c))), At(3, si(bi.w0.d))), k.w3));
    var x := UnshiftRows(SubB(si, bi));
    Split(x.w0);
    Split(x.w1);
    Split(x.w2);
    Split(x.w3);
  }

  /** Full round `r` with the round key at word `4 * r`. */
  method FnroundAt(s: Sub, a: array<Word>, b: Block, r: nat, ghost sched: seq<Block>, ghost x: Block) returns (o: Block)
    requires 0 < r < |sched| && 4 * |sched| <= a.Length && sched == Blocks(a[..], |sched|)
    requires b == Forward(s, sched, x, r - 1)
    ensures o == Forward(s, sched, x, r)
  {
    hide FullRound;
    o := Fnround(s, b, Block(a[4 * r], a[4 * r + 1], a[4 * r + 2], a[4 * r + 3]));
  }

  method InroundAt(si: Sub, a: array<Word>, b: Block, r: nat, ghost sched: seq<Block>, ghost x: Block)
    returns (o: Block)
    requires 0 < r < |sched| && 4 * |sched| <= a.Length && sched == Blocks(a[..], |sched|)
    requires b == Backward(si, sched, x, r - 1)
    ensures o == Backward(si, sched, x, r)
  {
    hide FullUnround;
    o := Inround(si, b, Block(a[4 * r], a[4 * r + 1], a[4 * r + 2], a[4 * r + 3]));
  }

  lemma {:induction false} ForwardStart(s: Sub, sched: seq<Block>, x: Block)
    requires 0 < |sched|
    ensures Forward(s, sched, x, 0) == XorB(x, sched[0])
  {
  }

  lemma {:induction false} BackwardStart(si: Sub, sched: seq<Block>, x: Block)
    requires 0 < |sched|
    ensures Backward(si, sched, x, 0) == XorB(x, sched[0])
  {
  }

  /** Where word `i` of the encryption schedule goes in the decryption schedule. */
  function Mirror(keyLength: nat, i: nat): int { keyLength + 24 - i / 4 * 4 + i % 4 }

  lemma {:induction false} MirrorBack(keyLength: nat, i: nat)
    requires keyLength % 4 == 0 && 4 <= i < keyLength + 24
    ensures 4 <= Mirror(keyLength, i) < keyLength + 24 && Mirror(keyLength, Mirror(keyLength, i)) == i
  {
  }

  /** The finished decryption schedule meets section 5.3.5 of FIPS 197. */
  lemma {:induction false} MirroredIsEquivalent(enc: seq<Word>, dec: seq<Word>, keyLength: nat, n: nat)
    requires 4 * n == keyLength + 24 && keyLength + 28 <= |enc| && keyLength + 28 <= |dec|
    requires forall c :: 0 <= c < 4 ==> dec[c] == enc[keyLength + 24 + c] && dec[keyLength + 24 + c] == enc[c]
    requires forall j ::
               4 <= j < keyLength + 24 ==>
                 0 <= Mirror(keyLength, j) < |enc| && dec[j] == Imix(enc[Mirror(keyLength, j)])
    ensures Equivalent(Blocks(enc, n + 1), Blocks(dec, n + 1))
  {
    hide Imix, Mirror, ImixB, Blocks;
    MirrorEnds(enc, dec, keyLength, n);
    var e, d := Blocks(enc, n + 1), Blocks(dec, n + 1);
    forall r | 0 < r < n ensures d[r] == ImixB(e[n - r]) {
      MirrorRound(enc, dec, keyLength, n, r);
    }
  }

  lemma {:induction false} MirrorEnds(enc: seq<Word>, dec: seq<Word>, keyLength: nat, n: nat)
    requires 4 * n == keyLength + 24 && keyLength + 28 <= |enc| && keyLength + 28 <= |dec|
    requires forall c :: 0 <= c < 4 ==> dec[c] == enc[keyLength + 24 + c] && dec[keyLength + 24 + c] == enc[c]
    ensures Blocks(dec, n + 1)[0] == Blocks(enc, n + 1)[n] && Blocks(dec, n + 1)[n] == Blocks(enc, n + 1)[0]
  {
  }

  lemma {:induction false} MirrorRound(enc: seq<Word>, dec: seq<Word>, keyLength: nat, n: nat, r: nat)
    requires 4 * n == keyLength + 24 && keyLength + 28 <= |enc| && keyLength + 28 <= |dec| && 0 < r < n
    requires forall j ::
               4 <= j < keyLength + 24 ==>
                 0 <= Mirror(keyLength, j) < |enc| && dec[j] == Imix(enc[Mirror(keyLength, j)])
    ensures Blocks(dec, n + 1)[r] == ImixB(Blocks(enc, n + 1)[n - r])
  {
    hide Imix, Mirror;
    MirrorRow(keyLength, n, r, 0);
    MirrorRow(keyLength, n, r, 1);
    MirrorRow(keyLength, n, r, 2);
    MirrorRow(keyLength, n, r, 3);
  }

  lemma {:induction false} MirrorRow(keyLength: nat, n: nat, r: nat, c: nat)
    requires 4 * n == keyLength + 24 && c < 4
    ensures Mirror(keyLength, 4 * r + c) == 4 * (n - r) + c
  {
  }

  function KeyWord(bytes: seq<bv8>, i: nat): Word
    requires 4 * i + 4 <= |bytes|
  {
    Word(bytes[4 * i], bytes[4 * i + 1], bytes[4 * i + 2], bytes[4 * i + 3])
  }

  function KeyOf(bytes: seq<bv8>): (r: seq<Word>)
    requires |bytes| % 4 == 0
  {
    seq(|bytes| / 4, i requires 0 <= i < |bytes| / 4 => KeyWord(bytes, i))
  }

  /** `struct crypto_aes_ctx`. */
  class AesContext {
    const keyEnc: array<Word>
    const keyDec: array<Word>
    var keyLength: nat

    constructor ()
      ensures keyEnc.Length == 60 && keyDec.Length == 60 && fresh(keyEnc) && fresh(keyDec) && keyEnc != keyDec
      ensures keyLength == 0
    {
      keyEnc := new Word[60](_ => Word(0, 0, 0, 0));
      keyDec := new Word[60](_ => Word(0, 0, 0, 0));
      keyLength := 0;
    }

    /** Both schedules are set up for `key`. */
    ghost predicate Ready(s: Sub, key: seq<Word>)
      reads this, keyEnc, keyDec
    {
      && keyEnc.Length == 60 && keyDec.Length == 60
      && KeyWords(|key|) && keyLength == 4 * |key|
      && Filled(s, key, keyEnc[..], keyLength + 28)
      && Equivalent(Blocks(keyEnc[..], RoundsOf(keyLength) + 1), Blocks(keyDec[..], RoundsOf(keyLength) + 1))
    }

    /** The three unrolled loops of `crypto_aes_expand_key`. */
    method FillEnc(s: Sub, key: seq<Word>)
      requires KeyWords(|key|) && keyEnc.Length == 60
      modifies keyEnc
      ensures Filled(s, key, keyEnc[..], 4 * |key| + 28)
    {
      hide Schedule;
      keyEnc[0], keyEnc[1], keyEnc[2], keyEnc[3] := key[0], key[1], key[2], key[3];
      assert forall i :: 0 <= i < |key| ==> Schedule(s, key, i) == key[i] by { Given(s, key); }
      var i := 0;
      if |key| == 4 {
        var t := keyEnc[3];
        assert Filled(s, key, keyEnc[..], 4);
        hide Filled;
        while i < 10
          invariant 0 <= i <= 10 && Filled(s, key, keyEnc[..], 4 * i + 4) && t == Schedule(s, key, 4 * i + 3)
        {
          t := Loop4(s, key, keyEnc, i, t);
          i := i + 1;
        }
      } else if |key| == 6 {
        keyEnc[4], keyEnc[5] := key[4], key[5];
        var t := keyEnc[5];
        assert Filled(s, key, keyEnc[..], 6);
        hide Filled;
        while i < 8
          invariant 0 <= i <= 8 && Filled(s, key, keyEnc[..], 6 * i + 6) && t == Schedule(s, key, 6 * i + 5)
        {
          t := Loop6(s, key, keyEnc, i, t);
          i := i + 1;
        }
      } else {
        keyEnc[4], keyEnc[5], keyEnc[6], keyEnc[7] := key[4], key[5], key[6], key[7];
        var t := keyEnc[7];
        assert Filled(s, key, keyEnc[..], 8);
        hide Filled;
        while i < 6
          invariant 0 <= i <= 6 && Filled(s, key, keyEnc[..], 8 * i + 8) && t == Schedule(s, key, 8 * i + 7)
        {
          t := Loop8(s, key, keyEnc, i, t);
          i := i + 1;
        }
        t := Loop8TopHalf(s, key, keyEnc, i, t);
      }
    }

    /** The loop over the inner rounds. */
    method FillInner(keyLen: nat)
      requires keyEnc.Length == 60 && keyDec.Length == 60 && keyEnc != keyDec
      requires keyLen == 16 || keyLen == 24 || keyLen == 32
      modifies keyDec
      ensures forall j :: 0 <= j < 4 || keyLen + 24 <= j < 60 ==> keyDec[j] == old(keyDec[j])
      ensures forall j ::
                4 <= j < keyLen + 24 ==> 0 <= Mirror(keyLen, j) < 60 && keyDec[j] == Imix(keyEnc[Mirror(keyLen, j)])
    {
      hide Imix;
      forall j | 4 <= j < keyLen + 24 ensures 4 <= Mirror(keyLen, j) < keyLen + 24 { MirrorBack(keyLen, j); }
      var i := 4;
      while i < keyLen + 24
        invariant 4 <= i <= keyLen + 24
        invariant forall j :: 0 <= j < 4 || keyLen + 24 <= j < 60 ==> keyDec[j] == old(keyDec[j])
        invariant forall j ::
                    4 <= j < keyLen + 24 && Mirror(keyLen, j) < i ==> keyDec[j] == Imix(keyEnc[Mirror(keyLen, j)])
      {
        MirrorBack(keyLen, i);
        var j := keyLen + 24 - i / 4 * 4 + i % 4;
        forall k | 4 <= k < keyLen + 24 && Mirror(keyLen, k) == i ensures k == j { MirrorBack(keyLen, k); }
        keyDec[j] := Imix(keyEnc[i]);
        i := i + 1;
      }
    }

    /** The decryption half of `crypto_aes_expand_key`. */
    method FillDec(keyLen: nat)
      requires keyEnc.Length == 60 && keyDec.Length == 60 && keyEnc != keyDec
      requires keyLen == 16 || keyLen == 24 || keyLen == 32
      modifies keyDec
      ensures Equivalent(Blocks(keyEnc[..], RoundsOf(keyLen) + 1), Blocks(keyDec[..], RoundsOf(keyLen) + 1))
    {
      hide Imix, Equivalent, Mirror, Blocks;
      forall c | 0 <= c < 4 { keyDec[keyLen + 24 + c] := keyEnc[c]; }
      forall c | 0 <= c < 4 { keyDec[c] := keyEnc[keyLen + 24 + c]; }
      FillInner(keyLen);
      MirroredIsEquivalent(keyEnc[..], keyDec[..], keyLen, RoundsOf(keyLen));
    }

    /** `crypto_aes_expand_key`: accepts exactly the three key sizes and sets up both schedules. */
    method ExpandKey(s: Sub, inKey: seq<bv8>) returns (ok: bool)
      requires keyEnc.Length == 60 && keyDec.Length == 60 && keyEnc != keyDec
      modifies this, keyEnc, keyDec
      ensures ok <==> |inKey| == 16 || |inKey| == 24 || |inKey| == 32
      ensures ok ==> Ready(s, KeyOf(inKey))
      ensures !ok ==> keyLength == old(keyLength) && keyEnc[..] == old(keyEnc[..]) && keyDec[..] == old(keyDec[..])
    {
      hide Filled, Equivalent;
      if |inKey| != 16 && |inKey| != 24 && |inKey| != 32 { return false; }
      keyLength := |inKey|;
      var key := KeyOf(inKey);
      FillEnc(s, key);
      FillDec(|inKey|);
      ok := true;
    }

    /** `aes_encrypt`. */
    method EncryptBlock(sub: Sub, ghost key: seq<Word>, x: Block) returns (y: Block)
      requires Ready(sub, key)
      ensures y == Encrypt(sub, Blocks(keyEnc[..], RoundsOf(keyLength) + 1), x)
    {
      hide Filled, Equivalent, LastRound, FullRound, XorB, Forward;
      ghost var sched := Blocks(keyEnc[..], RoundsOf(keyLength) + 1);
      var b0 := XorB(x, Block(keyEnc[0], keyEnc[1], keyEnc[2], keyEnc[3]));
      var b1: Block;
      ForwardStart(sub, sched, x);
      var kp := 1;
      if keyLength > 24 {
        b1 := FnroundAt(sub, keyEnc, b0, kp, sched, x);
        b0 := FnroundAt(sub, keyEnc, b1, kp + 1, sched, x);
        kp := kp + 2;
      }
      if keyLength > 16 {
        b1 := FnroundAt(sub, keyEnc, b0, kp, sched, x);
        b0 := FnroundAt(sub, keyEnc, b1, kp + 1, sched, x);
        kp := kp + 2;
      }
      b1 := FnroundAt(sub, keyEnc, b0, kp, sched, x);
      b0 := FnroundAt(sub, keyEnc, b1, kp + 1, sched, x);
      b1 := FnroundAt(sub, keyEnc, b0, kp + 2, sched, x);
      b0 := FnroundAt(sub, keyEnc, b1, kp + 3, sched, x);
      b1 := FnroundAt(sub, keyEnc, b0, kp + 4, sched, x);
      b0 := FnroundAt(sub, keyEnc, b1, kp + 5, sched, x);
      b1 := FnroundAt(sub, keyEnc, b0, kp + 6, sched, x);
      b0 := FnroundAt(sub, keyEnc, b1, kp + 7, sched, x);
      b1 := FnroundAt(sub, keyEnc, b0, kp + 8, sched, x);
      y := Flround(sub, b1, Block(keyEnc[4 * kp + 36], keyEnc[4 * kp + 37], keyEnc[4 * kp + 38], keyEnc[4 * kp + 39]));
    }

    /** `aes_decrypt`. */
    method DecryptBlock(sub: Sub, ghost s: Sub, ghost key: seq<Word>, x: Block) returns (y: Block)
      requires Ready(s, key)
      ensures y == Decrypt(sub, Blocks(keyDec[..], RoundsOf(keyLength) + 1), x)
    {
      hide Filled, Equivalent, LastUnround, FullUnround, XorB, Backward;
      ghost var sched := Blocks(keyDec[..], RoundsOf(keyLength) + 1);
      var b0 := XorB(x, Block(keyDec[0], keyDec[1], keyDec[2], keyDec[3]));
      var b1: Block;
      BackwardStart(sub, sched, x);
      var kp := 1;
      if keyLength > 24 {
        b1 := InroundAt(sub, keyDec, b0, kp, sched, x);
        b0 := InroundAt(sub, keyDec, b1, kp + 1, sched, x);
        kp := kp + 2;
      }
      if keyLength > 16 {
        b1 := InroundAt(sub, keyDec, b0, kp, sched, x);
        b0 := InroundAt(sub, keyDec, b1, kp + 1, sched, x);
        kp := kp + 2;
      }
      b1 := InroundAt(sub, keyDec, b0, kp, sched, x);
      b0 := InroundAt(sub, keyDec, b1, kp + 1, sched, x);
      b1 := InroundAt(sub, keyDec, b0, kp + 2, sched, x);
      b0 := InroundAt(sub, keyDec, b1, kp + 3, sched, x);
      b1 := InroundAt(sub, keyDec, b0, kp + 4, sched, x);
      b0 := InroundAt(sub, keyDec, b1, kp + 5, sched, x);
      b1 := InroundAt(sub, keyDec, b0, kp + 6, sched, x);
      b0 := InroundAt(sub, keyDec, b1, kp + 7, sched, x);
      b1 := InroundAt(sub, keyDec, b0, kp + 8, sched, x);
      y := Ilround(sub, b1, Block(keyDec[4 * kp + 36], keyDec[4 * kp + 37], keyDec[4 * kp + 38], keyDec[4 * kp + 39]));
    }

    /** With an inverse pair of substitutions, what the set-up context encrypts it also decrypts. */
    lemma {:induction false} RoundTrip(s: Sub, si: Sub, key: seq<Word>, x: Block)
      requires Ready(s, key) && Inverse(s, si)
      ensures var n := RoundsOf(keyLength) + 1;
              Decrypt(si, Blocks(keyDec[..], n), Encrypt(s, Blocks(keyEnc[..], n), x)) == x
    {
      hide Filled, Encrypt, Decrypt, Inverse;
      DecryptUndoes(s, si, Blocks(keyEnc[..], RoundsOf(keyLength) + 1), Blocks(keyDec[..], RoundsOf(keyLength) + 1), x);
    }
  }

  lemma {:induction false} Given(s: Sub, key: seq<Word>)
    requires KeyWords(|key|)
    ensures forall i :: 0 <= i < |key| ==> Schedule(s, key, i) == key[i]
  {
  }
}
