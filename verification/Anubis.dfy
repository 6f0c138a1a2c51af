/** The block cipher of crypto/anubis.c: one routine both encrypts and decrypts, with the schedule `E` or the
    inverse schedule `D`. The tables are given by a byte substitution that is its own inverse. */
module Anubis {

  import A = Aes

  type Word = A.Word
  type Block = A.Block
  type Sub = A.Sub

  // ---------------------------------------------------------------- The linear layer

  /** Multiplication by X modulo the polynomial of Anubis. Bytes stand most significant first here. */
  function Xt(b: bv8): bv8 { ((b & 0x7f) << 1) ^ (((b & 0x80) >> 7) * 0x1d) }

  function Six(s: bv8): bv8 { A.Bx(Xt(Xt(s)), Xt(s)) }

  /** Column `p` of the tables `T0` to `T3`: one, two, four and six times the byte. */
  function Table(p: nat, s: bv8): Word
    requires p < 4
  {
    var x, y, z := Xt(s), Xt(Xt(s)), Six(s);
    if p == 0 then A.Word(s, x, y, z) else if p == 1 then A.Word(x, s, z, y)
    else if p == 2 then A.Word(y, z, s, x) else A.Word(z, y, x, s)
  }

  /** The diffusion layer theta on one row. */
  function Theta(x: Word): Word { A.Xor(A.Xor(A.Xor(Table(0, x.a), Table(1, x.b)), Table(2, x.c)), Table(3, x.d)) }

  function ThetaB(x: Block): Block { A.Block(Theta(x.w0), Theta(x.w1), Theta(x.w2), Theta(x.w3)) }

  /** The transposition tau. */
  function Tau(x: Block): Block {
    A.Block(A.Word(x.w0.a, x.w1.a, x.w2.a, x.w3.a), A.Word(x.w0.b, x.w1.b, x.w2.b, x.w3.b),
            A.Word(x.w0.c, x.w1.c, x.w2.c, x.w3.c), A.Word(x.w0.d, x.w1.d, x.w2.d, x.w3.d))
  }

  lemma {:induction false} XtLinear(x: bv8, y: bv8)
    ensures Xt(A.Bx(x, y)) == A.Bx(Xt(x), Xt(y))
  {
  }

  lemma {:induction false} BxPairs(a: bv8, b: bv8, c: bv8, d: bv8)
    ensures A.Bx(A.Bx(a, b), A.Bx(c, d)) == A.Bx(A.Bx(a, c), A.Bx(b, d))
  {
    hide A.Bx;
    A.BxLaws(a, b, A.Bx(c, d));
    A.BxLaws(b, c, d);
    A.BxLaws(c, b, d);
    A.BxLaws(a, c, A.Bx(b, d));
    A.BxLaws(b, c, 0);
  }

  lemma {:induction false} SixLinear(x: bv8, y: bv8)
    ensures Six(A.Bx(x, y)) == A.Bx(Six(x), Six(y))
  {
    hide A.Bx, Xt;
    XtLinear(x, y);
    XtLinear(Xt(x), Xt(y));
    BxPairs(Xt(Xt(x)), Xt(Xt(y)), Xt(x), Xt(y));
  }

  lemma {:induction false} TableLinear(p: nat, x: bv8, y: bv8)
    requires p < 4
    ensures Table(p, A.Bx(x, y)) == A.Xor(Table(p, x), Table(p, y))
  {
    hide A.Bx, Xt, Six, Table;
    XtLinear(x, y);
    XtLinear(Xt(x), Xt(y));
    SixLinear(x, y);
    TableIs(p, x);
    TableIs(p, y);
    TableIs(p, A.Bx(x, y));
  }

  lemma {:induction false} TableIs(p: nat, s: bv8)
    requires p < 4
    ensures p == 0 ==> Table(p, s) == A.Word(s, Xt(s), Xt(Xt(s)), Six(s))
    ensures p == 1 ==> Table(p, s) == A.Word(Xt(s), s, Six(s), Xt(Xt(s)))
    ensures p == 2 ==> Table(p, s) == A.Word(Xt(Xt(s)), Six(s), s, Xt(s))
    ensures p == 3 ==> Table(p, s) == A.Word(Six(s), Xt(Xt(s)), Xt(s), s)
  {
  }

  lemma {:induction false} ThetaLinear(x: Word, y: Word)
    ensures Theta(A.Xor(x, y)) == A.Xor(Theta(x), Theta(y))
  {
    var a0, a1, a2, a3 := Table(0, x.a), Table(1, x.b), Table(2, x.c), Table(3, x.d);
    var b0, b1, b2, b3 := Table(0, y.a), Table(1, y.b), Table(2, y.c), Table(3, y.d);
    hide A.Bx, Table;
    TableLinear(0, x.a, y.a);
    TableLinear(1, x.b, y.b);
    TableLinear(2, x.c, y.c);
    TableLinear(3, x.d, y.d);
    SumOfSums(a0, a1, a2, a3, b0, b1, b2, b3);
  }

  lemma {:induction false} SumOfSums(a0: Word, a1: Word, a2: Word, a3: Word, b0: Word, b1: Word, b2: Word, b3: Word)
    ensures A.Xor(A.Xor(A.Xor(A.Xor(a0, b0), A.Xor(a1, b1)), A.Xor(a2, b2)), A.Xor(a3, b3))
         == A.Xor(A.Xor(A.Xor(A.Xor(a0, a1), a2), a3), A.Xor(A.Xor(A.Xor(b0, b1), b2), b3))
  {
    hide A.Xor;
    A.Regroup(a0, b0, a1, b1);
    A.Regroup(A.Xor(a0, a1), A.Xor(b0, b1), a2, b2);
    A.Regroup(A.Xor(A.Xor(a0, a1), a2), A.Xor(A.Xor(b0, b1), b2), a3, b3);
  }

  /** One byte of theta. */
  function ThetaByte(x0: bv8, x1: bv8, x2: bv8, x3: bv8): bv8 { A.Bx(A.Bx(A.Bx(x0, Xt(x1)), Xt(Xt(x2))), Six(x3)) }

  lemma {:induction false} Cancels(s: bv8)
    ensures var x, y, z := Xt(s), Xt(Xt(s)), Six(s);
            && ThetaByte(s, x, y, z) == s && ThetaByte(x, s, z, y) == 0
            && ThetaByte(y, z, s, x) == 0 && ThetaByte(z, y, x, s) == 0
  {
  }

  lemma {:induction false} ThetaBytes(x: Word)
    ensures Theta(x).a == ThetaByte(x.a, x.b, x.c, x.d)
    ensures Theta(x).b == ThetaByte(x.b, x.a, x.d, x.c)
    ensures Theta(x).c == ThetaByte(x.c, x.d, x.a, x.b)
    ensures Theta(x).d == ThetaByte(x.d, x.c, x.b, x.a)
  {
    hide A.Bx, Xt, Six;
    ByteB(x);
    ByteC(x);
    ByteD(x);
  }

  lemma {:induction false} ByteB(x: Word)
    ensures A.Bx(A.Bx(A.Bx(Xt(x.a), x.b), Six(x.c)), Xt(Xt(x.d))) == ThetaByte(x.b, x.a, x.d, x.c)
  {
    hide A.Bx, Xt, Six;
    A.BxLaws(Xt(x.a), x.b, 0);
    var q := A.Bx(x.b, Xt(x.a));
    A.BxLaws(q, Six(x.c), Xt(Xt(x.d)));
    A.BxLaws(Six(x.c), Xt(Xt(x.d)), 0);
    A.BxLaws(q, Xt(Xt(x.d)), Six(x.c));
  }

  lemma {:induction false} ByteC(x: Word)
    ensures A.Bx(A.Bx(A.Bx(Xt(Xt(x.a)), Six(x.b)), x.c), Xt(x.d)) == ThetaByte(x.c, x.d, x.a, x.b)
  {
    hide A.Bx, Xt, Six;
    A.SumTurns(x.c, Xt(x.d), Xt(Xt(x.a)), Six(x.b));
  }

  lemma {:induction false} ByteD(x: Word)
    ensures A.Bx(A.Bx(A.Bx(Six(x.a), Xt(Xt(x.b))), Xt(x.c)), x.d) == ThetaByte(x.d, x.c, x.b, x.a)
  {
    hide A.Bx, Xt, Six;
    var a, b, c, d := Six(x.a), Xt(Xt(x.b)), Xt(x.c), x.d;
    A.BxLaws(a, b, 0);
    A.BxLaws(c, d, 0);
    A.BxLaws(A.Bx(a, b), c, d);
    A.BxLaws(A.Bx(a, b), A.Bx(c, d), 0);
    A.BxLaws(A.Bx(d, c), b, a);
  }

  lemma {:induction false} ThetaColumn(p: nat, s: bv8)
    requires p < 4
    ensures Theta(Table(p, s)) == A.At(p, s)
  {
    hide A.Bx, Xt, Six, ThetaByte, Theta, Table;
    Cancels(s);
    TableIs(p, s);
    ThetaBytes(Table(p, s));
  }

  /** Theta undoes itself: doubling is linear. */
  lemma {:induction false} ThetaTwice(x: Word)
    ensures Theta(Theta(x)) == x
  {
    var f0, f1, f2, f3 := Table(0, x.a), Table(1, x.b), Table(2, x.c), Table(3, x.d);
    assert Theta(x) == A.Xor(A.Xor(A.Xor(f0, f1), f2), f3);
    hide Theta, A.Xor, Table, A.At;
    ThetaLinear(A.Xor(A.Xor(f0, f1), f2), f3);
    ThetaLinear(A.Xor(f0, f1), f2);
    ThetaLinear(f0, f1);
    ThetaColumn(0, x.a);
    ThetaColumn(1, x.b);
    ThetaColumn(2, x.c);
    ThetaColumn(3, x.d);
    A.Split(x);
  }

  lemma {:induction false} ThetaBTwice(x: Block)
    ensures ThetaB(ThetaB(x)) == x
  {
    hide Theta;
    ThetaTwice(x.w0);
    ThetaTwice(x.w1);
    ThetaTwice(x.w2);
    ThetaTwice(x.w3);
  }

  lemma {:induction false} ThetaBLinear(x: Block, y: Block)
    ensures ThetaB(A.XorB(x, y)) == A.XorB(ThetaB(x), ThetaB(y))
  {
    hide Theta, A.Xor;
    ThetaLinear(x.w0, y.w0);
    ThetaLinear(x.w1, y.w1);
    ThetaLinear(x.w2, y.w2);
    ThetaLinear(x.w3, y.w3);
  }

  // ---------------------------------------------------------------- Inversion

  ghost predicate Involution(s: Sub) { forall b: bv8 :: s(s(b)) == b }

  lemma {:induction false} TauSubTwice(s: Sub, x: Block)
    requires Involution(s)
    ensures Tau(A.SubB(s, Tau(A.SubB(s, x)))) == x
  {
  }

  /** The state after the first key addition and `n` full rounds. */
  function Rounds(s: Sub, key: seq<Block>, x: Block, n: nat): Block
    requires n < |key|
  {
    if n == 0 then A.XorB(x, key[0]) else A.XorB(ThetaB(Tau(A.SubB(s, Rounds(s, key, x, n - 1)))), key[n])
  }

  /** `anubis_crypt`. */
  function Crypt(s: Sub, key: seq<Block>, x: Block): Block
    requires 2 <= |key|
  {
    A.XorB(Tau(A.SubB(s, Rounds(s, key, x, |key| - 2))), key[|key| - 1])
  }

  /** `D` is `E` reversed, with theta on all but the ends. */
  ghost predicate InverseSchedule(e: seq<Block>, d: seq<Block>) {
    && |d| == |e| && 2 <= |e|
    && d[0] == e[|e| - 1] && d[|e| - 1] == e[0]
    && forall r :: 0 < r < |e| - 1 ==> d[r] == ThetaB(e[|e| - 1 - r])
  }

  lemma {:induction false} RoundsMeet(s: Sub, e: seq<Block>, d: seq<Block>, x: Block, n: nat)
    requires Involution(s) && InverseSchedule(e, d) && n < |e| - 1
    ensures Rounds(s, d, Crypt(s, e, x), n) == Tau(A.SubB(s, Rounds(s, e, x, |e| - 2 - n)))
  {
    hide A.XorB, Tau, A.SubB, ThetaB, Involution;
    if n == 0 {
      A.XorBLaws(Tau(A.SubB(s, Rounds(s, e, x, |e| - 2))), e[|e| - 1]);
    } else {
      RoundsMeet(s, e, d, x, n - 1);
      TauSubTwice(s, Rounds(s, e, x, |e| - 1 - n));
      var m := Tau(A.SubB(s, Rounds(s, e, x, |e| - 2 - n)));
      ThetaBLinear(ThetaB(m), e[|e| - 1 - n]);
      ThetaBTwice(m);
      A.XorBLaws(m, ThetaB(e[|e| - 1 - n]));
    }
  }

  /** The same routine with the inverse schedule undoes itself, for every number of rounds, every schedule and
      every block. */
  lemma {:induction false} CryptUndoes(s: Sub, e: seq<Block>, d: seq<Block>, x: Block)
    requires Involution(s) && InverseSchedule(e, d)
    ensures Crypt(s, d, Crypt(s, e, x)) == x
  {
    hide A.XorB, Tau, A.SubB, ThetaB, Involution;
    RoundsMeet(s, e, d, x, |e| - 2);
    TauSubTwice(s, A.XorB(x, e[0]));
    A.XorBLaws(x, e[0]);
  }

  // ---------------------------------------------------------------- The context

  /** A word of the inverse schedule: the tables substitute again what `T4` substituted. */
  function Retabled(s: Sub, v: Word): Word {
    A.Xor(A.Xor(A.Xor(Table(0, s(s(v.a))), Table(1, s(s(v.b)))), Table(2, s(s(v.c)))), Table(3, s(s(v.d))))
  }

  /** The last round masks each table to the byte that is not multiplied. */
  function Masked(p: bv8, q: bv8, r: bv8, t: bv8): (w: Word)
    ensures w == A.Word(p, q, r, t)
  {
    A.Word(Table(0, p).a, Table(1, q).b, Table(2, r).c, Table(3, t).d)
  }

  lemma {:induction false} RetabledIsTheta(s: Sub, v: Word)
    requires Involution(s)
    ensures Retabled(s, v) == Theta(v)
  {
    hide A.Xor, Table;
  }

  /** `struct anubis_ctx`. */
  class AnubisContext {
    const e: array<Block>
    const d: array<Block>
    var rounds: nat

    constructor ()
      ensures e.Length == 19 && d.Length == 19 && e != d && fresh(e) && fresh(d)
    {
      var zero := A.Word(0, 0, 0, 0);
      e := new Block[19](_ => A.Block(zero, zero, zero, zero));
      d := new Block[19](_ => A.Block(zero, zero, zero, zero));
      rounds := 0;
    }

    ghost predicate Ready()
      reads this, e, d
    {
      1 <= rounds < e.Length == d.Length && InverseSchedule(e[..rounds + 1], d[..rounds + 1])
    }

    /** The last part of `anubis_setkey`, for a key of `n` words whose schedule is in `e`. */
    method InvertSchedule(s: Sub, n: nat)
      requires 4 <= n <= 10 && e.Length == 19 && d.Length == 19 && e != d && Involution(s)
      modifies this, d
      ensures rounds == 8 + n && Ready()
    {
      hide Retabled, Theta, Involution;
      rounds := 8 + n;
      d[0] := e[rounds];
      d[rounds] := e[0];
      var r := 1;
      while r < rounds
        invariant 1 <= r <= rounds == 8 + n
        invariant d[0] == e[rounds] && d[rounds] == e[0]
        invariant forall k :: 0 < k < r ==> d[k] == ThetaB(e[rounds - k])
      {
        var v := e[rounds - r];
        d[r] := A.Block(Retabled(s, v.w0), Retabled(s, v.w1), Retabled(s, v.w2), Retabled(s, v.w3));
        RetabledIsTheta(s, v.w0);
        RetabledIsTheta(s, v.w1);
        RetabledIsTheta(s, v.w2);
        RetabledIsTheta(s, v.w3);
        r := r + 1;
      }
      assert InverseSchedule(e[..rounds + 1], d[..rounds + 1]);
    }

    /** The round loop of `anubis_crypt`, with either schedule. */
    static method CryptBlock(s: Sub, key: array<Block>, rounds: nat, x: Block) returns (y: Block)
      requires 1 <= rounds < key.Length
      ensures y == Crypt(s, key[..rounds + 1], x)
    {
      hide A.XorB, Table, A.Xor, Masked;
      ghost var sched := key[..rounds + 1];
      y := A.XorB(x, key[0]);
      var r := 1;
      while r < rounds
        invariant 1 <= r <= rounds && y == Rounds(s, sched, x, r - 1)
      {
        y := A.XorB(A.Block(
               A.Xor(A.Xor(A.Xor(Table(0, s(y.w0.a)), Table(1, s(y.w1.a))), Table(2, s(y.w2.a))), Table(3, s(y.w3.a))),
               A.Xor(A.Xor(A.Xor(Table(0, s(y.w0.b)), Table(1, s(y.w1.b))), Table(2, s(y.w2.b))), Table(3, s(y.w3.b))),
               A.Xor(A.Xor(A.Xor(Table(0, s(y.w0.c)), Table(1, s(y.w1.c))), Table(2, s(y.w2.c))), Table(3, s(y.w3.c))),
               A.Xor(A.Xor(A.Xor(Table(0, s(y.w0.d)), Table(1, s(y.w1.d))), Table(2, s(y.w2.d))), Table(3, s(y.w3.d)))),
             key[r]);
        assert key[r] == sched[r];
        r := r + 1;
      }
      y := A.XorB(A.Block(
             Masked(s(y.w0.a), s(y.w1.a), s(y.w2.a), s(y.w3.a)), Masked(s(y.w0.b), s(y.w1.b), s(y.w2.b), s(y.w3.b)),
             Masked(s(y.w0.c), s(y.w1.c), s(y.w2.c), s(y.w3.c)), Masked(s(y.w0.d), s(y.w1.d), s(y.w2.d), s(y.w3.d))),
             key[rounds]);
    }

    /** Running the routine with `d` undoes running it with `e`. */
    lemma {:induction false} RoundTrip(s: Sub, x: Block)
      requires Ready() && Involution(s)
      ensures Crypt(s, d[..rounds + 1], Crypt(s, e[..rounds + 1], x)) == x
    {
      hide Crypt, Involution;
      CryptUndoes(s, e[..rounds + 1], d[..rounds + 1], x);
    }
  }
}
