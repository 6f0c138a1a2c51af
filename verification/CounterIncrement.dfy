/** `crypto_inc` of crypto/algapi.c: adds one to a big-endian counter in place, by 32-bit words and then by
    bytes, stopping as soon as there is no carry. */
module CounterIncrement {

  type Byte = x: int | 0 <= x < 256

  const WORD_RANGE := 0x1_0000_0000

  /** The number that `s` spells, most significant byte first. */
  function Value(s: seq<Byte>): nat {
    if s == [] then 0 else Value(s[..|s| - 1]) * 256 + s[|s| - 1]
  }

  function Pow256(n: nat): (p: nat)
    ensures 0 < p
  {
    if n == 0 then 1 else Pow256(n - 1) * 256
  }

  /** Carrying one byte at a time. */
  function Inc(s: seq<Byte>): (r: seq<Byte>)
    ensures |r| == |s|
  {
    if s == [] then []
    else if s[|s| - 1] == 255 then Inc(s[..|s| - 1]) + [0]
    else s[..|s| - 1] + [s[|s| - 1] + 1]
  }

  lemma {:induction false} ValueBound(s: seq<Byte>)
    ensures Value(s) < Pow256(|s|)
  {
    if s != [] { ValueBound(s[..|s| - 1]); }
  }

  /** Adding one below a bound, as a remainder. */
  lemma {:induction false} WrapIs(v: nat, p: nat)
    requires v < p
    ensures (v + 1) % p == if v + 1 == p then 0 else v + 1
  {
    if v + 1 < p { SmallMod(v + 1, p); }
  }

  lemma {:induction false} SmallMod(x: nat, m: nat)
    requires x < m
    ensures x % m == x
  {
  }

  /** The increment adds one modulo `256^size`, for every length. */
  lemma {:induction false} IncAddsOne(s: seq<Byte>)
    ensures Value(Inc(s)) == (Value(s) + 1) % Pow256(|s|)
  {
    ValueBound(s);
    WrapIs(Value(s), Pow256(|s|));
    IncValue(s);
  }

  lemma {:induction false} IncValue(s: seq<Byte>)
    requires Value(s) < Pow256(|s|)
    ensures Value(Inc(s)) == if Value(s) + 1 == Pow256(|s|) then 0 else Value(s) + 1
  {
    if s != [] {
      var init, last := s[..|s| - 1], s[|s| - 1];
      ValueBound(init);
      if last == 255 {
        IncValue(init);
        assert (Inc(init) + [0])[..|s| - 1] == Inc(init);
      } else {
        assert (init + [last + 1])[..|s| - 1] == init;
      }
    }
  }

  lemma {:induction false} IncNoCarry(p: seq<Byte>, b: Byte)
    ensures Inc(p + [b]) == if b == 255 then Inc(p) + [0] else p + [b + 1]
  {
    assert (p + [b])[..|p|] == p;
  }

  /** The big-endian 32-bit word of four bytes, and back. */
  function Word(a: Byte, b: Byte, c: Byte, d: Byte): (w: nat)
    ensures w < WORD_RANGE
  {
    ((a * 256 + b) * 256 + c) * 256 + d
  }

  function ByteOf(w: nat, shift: nat): Byte
    requires 0 < shift
  {
    w / shift % 256
  }

  function Unpack(w: nat): seq<Byte> { [ByteOf(w, 0x100_0000), ByteOf(w, 0x1_0000), ByteOf(w, 0x100), ByteOf(w, 1)] }

  lemma {:induction false} UnpackWord(a: Byte, b: Byte, c: Byte, d: Byte)
    ensures Unpack(Word(a, b, c, d)) == [a, b, c, d]
  {
    var w := Word(a, b, c, d);
    assert w / 0x100_0000 == a;
    assert w / 0x1_0000 == a * 256 + b;
    assert w / 0x100 == (a * 256 + b) * 256 + c;
  }

  /** Adding one to a word, byte by byte. */
  lemma {:induction false} WordCarry(a: Byte, b: Byte, c: Byte, d: Byte)
    ensures var w := (Word(a, b, c, d) + 1) % WORD_RANGE;
            && (d < 255 ==> w == Word(a, b, c, d + 1) != 0)
            && (d == 255 && c < 255 ==> w == Word(a, b, c + 1, 0) != 0)
            && (d == 255 && c == 255 && b < 255 ==> w == Word(a, b + 1, 0, 0) != 0)
            && (d == 255 && c == 255 && b == 255 && a < 255 ==> w == Word(a + 1, 0, 0, 0) != 0)
            && (d == 255 && c == 255 && b == 255 && a == 255 ==> w == 0)
  {
  }

  /** One word step is four byte steps: adding one to the word carries out of it exactly if it wraps to zero. */
  lemma {:induction false} WordStep(p: seq<Byte>, a: Byte, b: Byte, c: Byte, d: Byte)
    ensures var w := (Word(a, b, c, d) + 1) % WORD_RANGE;
            Inc(p + [a, b, c, d]) == if w == 0 then Inc(p) + [0, 0, 0, 0] else p + Unpack(w)
  {
    hide Word, Unpack, Inc;
    var t := p + [a, b, c, d];
    assert t == p + [a] + [b] + [c] + [d];
    IncNoCarry(p + [a] + [b] + [c], d);
    IncNoCarry(p + [a] + [b], c);
    IncNoCarry(p + [a], b);
    IncNoCarry(p, a);
    WordCarry(a, b, c, d);
    if d < 255 {
      UnpackWord(a, b, c, d + 1);
      assert p + [a] + [b] + [c] + [d + 1] == p + [a, b, c, d + 1];
    } else if c < 255 {
      UnpackWord(a, b, c + 1, 0);
      assert p + [a] + [b] + [c + 1] + [0] == p + [a, b, c + 1, 0];
    } else if b < 255 {
      UnpackWord(a, b + 1, 0, 0);
      assert p + [a] + [b + 1] + [0] + [0] == p + [a, b + 1, 0, 0];
    } else if a < 255 {
      UnpackWord(a + 1, 0, 0, 0);
      assert p + [a + 1] + [0] + [0] + [0] == p + [a + 1, 0, 0, 0];
    } else {
      assert Inc(p) + [0] + [0] + [0] + [0] == Inc(p) + [0, 0, 0, 0];
    }
  }

  function Zeros(n: nat): seq<Byte> { seq(n, _ => 0) }

  /** `crypto_inc_byte` on the first `size` bytes. */
  method CryptoIncByte(a: array<Byte>, size: nat)
    requires size <= a.Length
    modifies a
    ensures a[..size] == Inc(old(a[..size])) && a[size..] == old(a[size..])
  {
    var n := size;
    while n > 0
      invariant 0 <= n <= size
      invariant a[..n] == old(a[..n]) && a[size..] == old(a[size..])
      invariant a[n..size] == Zeros(size - n)
      invariant Inc(old(a[..size])) == Inc(old(a[..n])) + Zeros(size - n)
    {
      ghost var p := old(a[..n - 1]);
      assert old(a[..n]) == p + [a[n - 1]];
      IncNoCarry(p, a[n - 1]);
      n := n - 1;
      var c: Byte := if a[n] == 255 then 0 else a[n] + 1;
      a[n] := c;
      if c != 0 {
        assert a[..size] == p + [c] + Zeros(size - n - 1);
        return;
      }
      assert [0] + Zeros(size - n - 1) == Zeros(size - n);
      assert a[n..size] == [0] + a[n + 1..size];
    }
    assert a[..size] == a[0..size];
  }

  /** One round of the word loop, on the word that ends before `n`. */
  method IncWord(a: array<Byte>, n: nat) returns (c: nat)
    requires 4 <= n <= a.Length
    modifies a
    ensures a[..n - 4] == old(a[..n - 4]) && a[n..] == old(a[n..])
    ensures c != 0 ==> a[..n] == Inc(old(a[..n]))
    ensures c == 0 ==> a[n - 4..n] == Zeros(4) && Inc(old(a[..n])) == Inc(old(a[..n - 4])) + Zeros(4)
  {
    hide Word, Inc, ByteOf;
    ghost var p := a[..n - 4];
    c := (Word(a[n - 4], a[n - 3], a[n - 2], a[n - 1]) + 1) % WORD_RANGE;
    WordStep(p, a[n - 4], a[n - 3], a[n - 2], a[n - 1]);
    assert a[..n] == p + [a[n - 4], a[n - 3], a[n - 2], a[n - 1]];
    a[n - 4], a[n - 3], a[n - 2], a[n - 1] :=
      ByteOf(c, 0x100_0000), ByteOf(c, 0x1_0000), ByteOf(c, 0x100), ByteOf(c, 1);
    assert a[..n] == p + Unpack(c);
    UnpackZero();
    assert a[n - 4..n] == Unpack(c);
  }

  lemma {:induction false} UnpackZero()
    ensures Unpack(0) == Zeros(4) == [0, 0, 0, 0]
  {
  }

  /** The word loop of `crypto_inc`: it either finishes the increment or leaves the carry to the first `n` bytes. */
  method IncWords(a: array<Byte>, size: nat) returns (n: nat, done: bool)
    requires size <= a.Length
    modifies a
    ensures n <= size && a[size..] == old(a[size..])
    ensures done ==> a[..size] == Inc(old(a[..size]))
    ensures !done ==> && n < 4 && a[..n] == old(a[..n]) && a[n..size] == Zeros(size - n)
                      && Inc(old(a[..size])) == Inc(old(a[..n])) + Zeros(size - n)
  {
    hide Inc;
    n, done := size, false;
    while n >= 4 && !done
      invariant 0 <= n <= size && a[size..] == old(a[size..])
      invariant !done ==> a[..n] == old(a[..n]) && a[n..size] == Zeros(size - n)
      invariant !done ==> Inc(old(a[..size])) == Inc(old(a[..n])) + Zeros(size - n)
      invariant done ==> a[..size] == Inc(old(a[..size]))
      decreases n, !done
    {
      Tail(a[..], n, size);
      var c := IncWord(a, n);
      Tail(a[..], n, size);
      if c != 0 {
        done := true;
      } else {
        assert Zeros(4) + Zeros(size - n) == Zeros(size - n + 4);
        assert a[n - 4..size] == a[n - 4..n] + a[n..size];
        n := n - 4;
      }
    }
  }

  /** `crypto_inc`. */
  method CryptoInc(a: array<Byte>, size: nat)
    requires size <= a.Length
    modifies a
    ensures a[..size] == Inc(old(a[..size])) && a[size..] == old(a[size..])
    ensures Value(a[..size]) == (Value(old(a[..size])) + 1) % Pow256(size)
  {
    IncAddsOne(a[..size]);
    hide Value, Pow256, Inc;
    var n, done := IncWords(a, size);
    if !done {
      Tail(a[..], n, size);
      CryptoIncByte(a, n);
      Tail(a[..], n, size);
    }
  }

  lemma {:induction false} Tail(s: seq<Byte>, n: nat, size: nat)
    requires n <= size <= |s|
    ensures s[..size] == s[..n] + s[n..size] && s[n..size] == s[n..][..size - n] && s[size..] == s[n..][size - n..]
  {
  }
}
