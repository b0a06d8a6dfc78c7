/**
  The key functions of the effect-property table: equality and hashing of
  a property specification.  A specification is identified by the type
  that declares it and by its name, a NUL-terminated byte string; the hash
  is a 31-times rolling hash over the name, in unsigned 32-bit arithmetic,
  seeded with the declaring type truncated to 32 bits.
 */
module PspecKey {

  newtype byte = x: int | 0 <= x < 256

  /** 2^32: unsigned 32-bit arithmetic wraps modulo this. */
  const Modulus: nat := 0x1_0000_0000

  /** The flag bit marking a property as writable. */
  const ParamWritable: bv32 := 2

  /** A property specification: declaring type, name buffer and flags. */
  datatype ParamSpec = ParamSpec(ownerType: nat, name: seq<byte>, flags: bv32)

  /** The byte a C string walk reads at position `i`; past the end of the
      buffer it reads the terminator. */
  function At(s: seq<byte>, i: nat): byte
  {
    if i < |s| then s[i] else 0
  }

  /** The string a NUL-terminated buffer holds: its bytes before the first NUL. */
  function CStr(s: seq<byte>): (r: seq<byte>)
    ensures r <= s
    ensures forall i :: 0 <= i < |r| ==> r[i] != 0
    ensures |r| < |s| ==> s[|r|] == 0
  {
    if |s| == 0 || s[0] == 0 then [] else [s[0]] + CStr(s[1..])
  }

  /** C `strcmp`: compares byte by byte as unsigned values, up to the first
      difference or the common terminator; zero exactly when the two
      buffers hold the same string. */
  function Strcmp(a: seq<byte>, b: seq<byte>): (r: int)
    ensures r == 0 <==> CStr(a) == CStr(b)
    decreases |a|
  {
    if At(a, 0) != At(b, 0) then At(a, 0) as int - At(b, 0) as int
    else if At(a, 0) == 0 then 0
    else Strcmp(a[1..], b[1..])
  }

  /** Two specifications are the same key when they have the same declaring
      type and their names compare equal. */
  function PspecEqual(a: ParamSpec, b: ParamSpec): (r: bool)
    ensures r <==> a.ownerType == b.ownerType && CStr(a.name) == CStr(b.name)
  {
    a.ownerType == b.ownerType && Strcmp(a.name, b.name) == 0
  }

  /** `PspecEqual` is an equivalence relation, so it is a valid key equality. */
  lemma PspecEqualIsEquivalence(a: ParamSpec, b: ParamSpec, c: ParamSpec)
    ensures PspecEqual(a, a)
    ensures PspecEqual(a, b) ==> PspecEqual(b, a)
    ensures PspecEqual(a, b) && PspecEqual(b, c) ==> PspecEqual(a, c)
  {
  }

  /** One step of the hash as the source writes it: shift left by five,
      subtract, add the byte, each in unsigned 32-bit arithmetic.  It is the
      31-times step modulo 2^32. */
  function Step(h: nat, c: byte): (r: nat)
    requires h < Modulus
    ensures r < Modulus
    ensures r == (31 * h + c as int) % Modulus
  {
    var shifted := (h * 32) % Modulus;
    ShiftedSubtract(h, shifted, c);
    ((shifted - h) % Modulus + c as int) % Modulus
  }

  /** Arithmetic behind `Step`: reducing the shifted value modulo 2^32
      first does not change the final residue. */
  lemma ShiftedSubtract(h: nat, shifted: nat, c: byte)
    requires shifted == (h * 32) % Modulus
    ensures ((shifted - h) % Modulus + c as int) % Modulus == (31 * h + c as int) % Modulus
  {
    var q := (h * 32) / Modulus;
    assert h * 32 == q * Modulus + shifted;
    assert shifted - h + c as int == (31 * h + c as int) - q * Modulus;
    ModShift(shifted - h, c as int);
    ModMultiple(31 * h + c as int, q);
  }

  /** Reducing a summand modulo 2^32 does not change the residue of the sum. */
  lemma ModShift(x: int, y: int)
    ensures (x % Modulus + y) % Modulus == (x + y) % Modulus
  {
    var q := x / Modulus;
    assert x == q * Modulus + x % Modulus;
    ModMultiple(x + y, q);
  }

  /** Subtracting a multiple of 2^32 does not change the residue. */
  lemma {:induction false} ModMultiple(x: int, q: int)
    ensures (x - q * Modulus) % Modulus == x % Modulus
    decreases if q < 0 then -q else q
  {
    if q > 0 {
      ModMultiple(x, q - 1);
      assert x - q * Modulus == (x - (q - 1) * Modulus) - Modulus;
    } else if q < 0 {
      ModMultiple(x, q + 1);
      assert x - q * Modulus == (x - (q + 1) * Modulus) + Modulus;
    }
  }

  /** The rolling hash of a string, started from `h`. */
  function Hash(h: nat, s: seq<byte>): (r: nat)
    requires h < Modulus
    ensures r < Modulus
    decreases |s|
  {
    if |s| == 0 then h else Hash(Step(h, s[0]), s[1..])
  }

  /** The hash loop over a NUL-terminated buffer, started from `h`: it
      consumes bytes until the terminator (or the end of the buffer). */
  function HashBuffer(h: nat, s: seq<byte>): (r: nat)
    requires h < Modulus
    ensures r < Modulus
    decreases |s|
  {
    if |s| == 0 || s[0] == 0 then h else HashBuffer(Step(h, s[0]), s[1..])
  }

  /** The hash of a specification: seeded with the declaring type truncated
      to 32 bits, rolled over the name. */
  function PspecHash(key: ParamSpec): (r: nat)
    ensures r < Modulus
  {
    HashBuffer(key.ownerType % Modulus, key.name)
  }

  /** The hash of an empty name is the truncated declaring type. */
  lemma EmptyNameHash(ownerType: nat, flags: bv32)
    ensures PspecHash(ParamSpec(ownerType, [], flags)) == ownerType % Modulus
    ensures PspecHash(ParamSpec(ownerType, [0], flags)) == ownerType % Modulus
  {
  }

  /** The buffer hash only sees the string the buffer holds. */
  lemma {:induction false} HashBufferIsHashOfString(h: nat, s: seq<byte>)
    requires h < Modulus
    ensures HashBuffer(h, s) == Hash(h, CStr(s))
    decreases |s|
  {
    if |s| == 0 || s[0] == 0 {
    } else {
      HashBufferIsHashOfString(Step(h, s[0]), s[1..]);
      assert CStr(s) == [s[0]] + CStr(s[1..]);
      assert CStr(s)[1..] == CStr(s[1..]);
    }
  }

  /** Appending a byte to the string applies one more 31-times step: the
      invariant of the hash loop. */
  lemma {:induction false} HashAppend(h: nat, s: seq<byte>, c: byte)
    requires h < Modulus
    ensures Hash(h, s + [c]) == (31 * Hash(h, s) + c as int) % Modulus
    decreases |s|
  {
    if |s| == 0 {
      assert (s + [c])[1..] == [];
    } else {
      HashAppend(Step(h, s[0]), s[1..], c);
      assert (s + [c])[1..] == s[1..] + [c];
    }
  }

  /** The hash polynomial without wrap-around: `h * 31^n + sum of
      s[i] * 31^(n-1-i)` for a string of length `n`. */
  function Polynomial(h: nat, s: seq<byte>): nat
  {
    if |s| == 0 then h else 31 * Polynomial(h, s[..|s| - 1]) + s[|s| - 1] as int
  }

  /** The rolling hash is the hash polynomial reduced modulo 2^32. */
  lemma {:induction false} HashIsPolynomial(h: nat, s: seq<byte>)
    requires h < Modulus
    ensures Hash(h, s) == Polynomial(h, s) % Modulus
    decreases |s|
  {
    if |s| > 0 {
      var init, c := s[..|s| - 1], s[|s| - 1];
      assert s == init + [c];
      HashIsPolynomial(h, init);
      HashAppend(h, init, c);
      var p := Polynomial(h, init);
      assert Polynomial(h, s) == 31 * p + c as int;
      calc {
        Hash(h, s);
        (31 * (p % Modulus) + c as int) % Modulus;
        { ModShift(31 * (p % Modulus), c as int); }
        ((31 * (p % Modulus)) % Modulus + c as int) % Modulus;
        { ModScale(p); }
        ((31 * p) % Modulus + c as int) % Modulus;
        { ModShift(31 * p, c as int); }
        (31 * p + c as int) % Modulus;
      }
    }
  }

  /** Multiplying by 31 commutes with reduction modulo 2^32, in the position
      the hash step uses it. */
  lemma ModScale(p: nat)
    ensures (31 * (p % Modulus)) % Modulus == (31 * p) % Modulus
  {
    var q := p / Modulus;
    assert p == q * Modulus + p % Modulus;
    assert 31 * (p % Modulus) == 31 * p - (31 * q) * Modulus;
    ModMultiple(31 * p, 31 * q);
  }

  /** The hash agrees with the key equality: equal keys hash equally, which
      the hash table keyed by these two functions relies on. */
  lemma HashRespectsEqual(a: ParamSpec, b: ParamSpec)
    requires PspecEqual(a, b)
    ensures PspecHash(a) == PspecHash(b)
  {
    HashBufferIsHashOfString(a.ownerType % Modulus, a.name);
    HashBufferIsHashOfString(b.ownerType % Modulus, b.name);
  }

  /** The hash loop: seeds with the truncated declaring type and steps over
      the name until its terminator. */
  method ComputePspecHash(key: ParamSpec) returns (h: nat)
    ensures h < Modulus
    ensures h == PspecHash(key)
  {
    h := key.ownerType % Modulus;
    var p := 0;
    while p < |key.name| && key.name[p] != 0
      invariant 0 <= p <= |key.name| && h < Modulus
      invariant HashBuffer(h, key.name[p..]) == PspecHash(key)
    {
      assert key.name[p..][1..] == key.name[p + 1..];
      h := Step(h, key.name[p]);
      p := p + 1;
    }
  }
}
