/**
 * The Saru random number generator of HOOMD-blue (hoomd/Saru.h): a thin state
 * wrapper around the Philox-4x32 counter-based generator of Random123.
 *
 * The generator keeps a two-word key and a four-word counter. The constructor
 * lays the seeds out into them; every draw evaluates Philox once on
 * (counter, key) and then adds one, modulo 2^32, to counter word 0. The Philox
 * rounds themselves are not modelled: the block function is a value given to
 * the constructor, and every property below holds whatever that function is.
 * The conversions of output words to floating point (u01, Box-Muller, the
 * affine map onto [a,b)) are kept symbolic: a draw returns the exact integer
 * words that the conversion would receive.
 */
module SaruRng {

  /** 2^32, the modulus of one Philox word. */
  const WORD: nat := 0x1_0000_0000

  /** `uint32_t` */
  newtype u32 = x: int | 0 <= x < 0x1_0000_0000
  /** `uint64_t` */
  newtype u64 = x: int | 0 <= x < 0x1_0000_0000_0000_0000

  /** Philox4x32::key_type */
  datatype Key = Key(k0: u32, k1: u32)

  /** Philox4x32::ctr_type: the counter, and also the block Philox returns. */
  datatype Words = Words(w0: u32, w1: u32, w2: u32, w3: u32)

  /** The Philox-4x32 block function: (counter, key) to four output words. */
  type BlockFn = (Words, Key) -> Words

  /** `m_ctr[0] += 1` on an unsigned 32-bit word: wraps from 2^32 - 1 to 0. */
  function Inc32(x: u32): (r: u32)
    ensures r as int == (x as int + 1) % WORD
  {
    if x as int == WORD - 1 then 0 else x + 1
  }

  /** The counter after one draw. */
  function Advance(c: Words): Words
  {
    c.(w0 := Inc32(c.w0))
  }

  /** The counter after n draws. */
  function AdvanceN(c: Words, n: nat): Words
  {
    if n == 0 then c else Advance(AdvanceN(c, n - 1))
  }

  /** The counter the constructor builds: {0, counter3, counter2, counter1}. */
  function InitialCounter(counter1: u32, counter2: u32, counter3: u32): Words
  {
    Words(0, counter3, counter2, counter1)
  }

  /**
   * `uint64_t(hi) << 32 | lo`: the 64-bit value whose high half is `hi` and
   * whose low half is `lo`. Both halves can be read back, so no two pairs of
   * words give the same 64-bit value.
   */
  function Pack64(hi: u32, lo: u32): (r: u64)
    ensures r as int / WORD == hi as int
    ensures r as int % WORD == lo as int
  {
    (hi as int * WORD + lo as int) as u64
  }

  /** The template argument `Real` of `s<Real>`, `s<Real>(a, b)` and `normal<Real>`. */
  datatype Precision = Single | Double

  /**
   * A uniform value on [0,1), kept as the bits given to `r123::u01`: one word
   * for `float`, two words packed into 64 bits for `double`.
   */
  datatype Unit = U01Float(bits32: u32) | U01Double(bits64: u64)

  /** A normal value: the first output of Box-Muller on the two given inputs. */
  datatype BoxMuller = BoxMullerFloat(u0: u32, u1: u32) | BoxMullerDouble(v0: u64, v1: u64)

  /** What a draw returns. `Ranged(a, b, x)` stands for `a + (b - a) * x`. */
  datatype Draw =
    | Word(word: u32)
    | Uniform(unit: Unit)
    | Ranged(a: real, b: real, unit: Unit)
    | Gaussian(normal: BoxMuller)

  /** The kinds of draw the class offers. */
  datatype Op =
    | U32Op
    | UnitOp(p: Precision)
    | RangedOp(p: Precision, a: real, b: real)
    | NormalOp(p: Precision)

  /** How `f()`/`d()` read a Philox block: word 0, or words 0 (high) and 1 (low). */
  function UnitOf(p: Precision, u: Words): Unit
  {
    match p
    case Single => U01Float(u.w0)
    case Double => U01Double(Pack64(u.w0, u.w1))
  }

  /** How `normal<float>`/`normal<double>` read a Philox block. */
  function BoxMullerOf(p: Precision, u: Words): BoxMuller
  {
    match p
    case Single => BoxMullerFloat(u.w0, u.w1)
    case Double => BoxMullerDouble(Pack64(u.w0, u.w1), Pack64(u.w2, u.w3))
  }

  /** The value a draw of kind `op` returns when Philox gives block `u`. */
  function DrawOf(op: Op, u: Words): Draw
  {
    match op
    case U32Op => Word(u.w0)
    case UnitOp(p) => Uniform(UnitOf(p, u))
    case RangedOp(p, a, b) => Ranged(a, b, UnitOf(p, u))
    case NormalOp(p) => Gaussian(BoxMullerOf(p, u))
  }

  /**
   * The values a generator with this key and initial counter returns for the
   * draws `ops`: the i-th draw sees the Philox block of the counter advanced
   * i times, and nothing else.
   */
  function Expected(philox: BlockFn, key: Key, origin: Words, ops: seq<Op>): seq<Draw>
  {
    seq(|ops|, i requires 0 <= i < |ops| => DrawOf(ops[i], philox(AdvanceN(origin, i), key)))
  }

  /** One more step of the wrap-around arithmetic behind AdvanceN. */
  lemma ModSucc(a: int)
    ensures (a % WORD + 1) % WORD == (a + 1) % WORD
  {
  }

  /** n draws add n to counter word 0, modulo 2^32, and leave words 1 to 3 alone. */
  lemma {:induction false} AdvanceNMovesWord0Only(c: Words, n: nat)
    ensures AdvanceN(c, n) == c.(w0 := ((c.w0 as int + n) % WORD) as u32)
  {
    if n > 0 {
      AdvanceNMovesWord0Only(c, n - 1);
      ModSucc(c.w0 as int + n - 1);
    }
  }

  /** Within fewer than 2^32 draws no counter value is fed to Philox twice. */
  lemma NoCounterRepeats(c: Words, i: nat, j: nat)
    requires i < j < i + WORD
    ensures AdvanceN(c, i) != AdvanceN(c, j)
  {
    AdvanceNMovesWord0Only(c, i);
    AdvanceNMovesWord0Only(c, j);
  }

  /** From a freshly constructed generator, counter word 0 counts the draws made. */
  lemma Word0CountsDraws(counter1: u32, counter2: u32, counter3: u32, n: nat)
    requires n < WORD
    ensures AdvanceN(InitialCounter(counter1, counter2, counter3), n) == Words(n as u32, counter3, counter2, counter1)
  {
  }

  /** After exactly 2^32 draws the counter is back where it started. */
  lemma CounterPeriod(c: Words)
    ensures AdvanceN(c, WORD) == c
  {
    AdvanceNMovesWord0Only(c, WORD);
  }

  /** `hoomd::detail::Saru` */
  class Saru {
    /** The Philox-4x32 block function every draw evaluates. */
    const philox: BlockFn
    /** `m_key` */
    var key: Key
    /** `m_ctr` */
    var ctr: Words
    /** The counter as the constructor left it. */
    ghost var origin: Words
    /** How many draws have been made. */
    ghost var drawn: nat

    ghost predicate Valid()
      reads this
    {
      ctr == AdvanceN(origin, drawn)
    }

    /**
     * The state one draw leaves behind, given the state before it: the key,
     * the origin and counter words 1 to 3 are unchanged, word 0 went up by one.
     */
    ghost predicate SteppedFrom(oldKey: Key, oldCtr: Words, oldOrigin: Words, oldDrawn: nat)
      reads this
    {
      && Valid()
      && key == oldKey
      && ctr == Advance(oldCtr)
      && origin == oldOrigin
      && drawn == oldDrawn + 1
    }

    /**
     * The five-value constructor. Every argument after the block function
     * defaults to 0, so each shorter form is this one with zeros.
     */
    constructor (philox: BlockFn, seed1: u32 := 0, seed2: u32 := 0,
                 counter1: u32 := 0, counter2: u32 := 0, counter3: u32 := 0)
      ensures this.philox == philox
      ensures key == Key(seed1, seed2)
      ensures ctr == InitialCounter(counter1, counter2, counter3)
      ensures Valid() && origin == ctr && drawn == 0
    {
      this.philox := philox;
      key := Key(seed1, seed2);
      ctr := Words(0, counter3, counter2, counter1);
      origin := Words(0, counter3, counter2, counter1);
      drawn := 0;
    }

    /** `u32()`: word 0 of Philox on the counter before the increment. */
    method U32() returns (r: u32)
      requires Valid()
      modifies this
      ensures SteppedFrom(old(key), old(ctr), old(origin), old(drawn))
      ensures r == philox(old(ctr), key).w0
    {
      var u := philox(ctr, key);
      ctr := Advance(ctr);
      drawn := drawn + 1;
      r := u.w0;
    }

    /** `f()`: a float on [0,1) made from word 0. */
    method F() returns (r: Unit)
      requires Valid()
      modifies this
      ensures SteppedFrom(old(key), old(ctr), old(origin), old(drawn))
      ensures r == U01Float(philox(old(ctr), key).w0)
    {
      var u := philox(ctr, key);
      ctr := Advance(ctr);
      drawn := drawn + 1;
      r := U01Float(u.w0);
    }

    /** `d()`: a double on [0,1) made from word 0 (high half) and word 1 (low half). */
    method D() returns (r: Unit)
      requires Valid()
      modifies this
      ensures SteppedFrom(old(key), old(ctr), old(origin), old(drawn))
      ensures r == U01Double(Pack64(philox(old(ctr), key).w0, philox(old(ctr), key).w1))
    {
      var u := philox(ctr, key);
      ctr := Advance(ctr);
      drawn := drawn + 1;
      var bits := Pack64(u.w0, u.w1);
      r := U01Double(bits);
    }

    /** `s<Real>()`: delegates to `f()` or `d()`. */
    method S(p: Precision) returns (r: Unit)
      requires Valid()
      modifies this
      ensures SteppedFrom(old(key), old(ctr), old(origin), old(drawn))
      ensures r == UnitOf(p, philox(old(ctr), key))
    {
      match p
      case Single => r := F();
      case Double => r := D();
    }

    /** `f(a, b)`: `a + (b - a) * f()`. */
    method FRange(a: real, b: real) returns (r: Draw)
      requires Valid()
      modifies this
      ensures SteppedFrom(old(key), old(ctr), old(origin), old(drawn))
      ensures r == Ranged(a, b, UnitOf(Single, philox(old(ctr), key)))
    {
      var x := F();
      r := Ranged(a, b, x);
    }

    /** `d(a, b)`: `a + (b - a) * d()`. */
    method DRange(a: real, b: real) returns (r: Draw)
      requires Valid()
      modifies this
      ensures SteppedFrom(old(key), old(ctr), old(origin), old(drawn))
      ensures r == Ranged(a, b, UnitOf(Double, philox(old(ctr), key)))
    {
      var x := D();
      r := Ranged(a, b, x);
    }

    /** `s<Real>(a, b)`: delegates to `f(a, b)` or `d(a, b)`. */
    method SRange(p: Precision, a: real, b: real) returns (r: Draw)
      requires Valid()
      modifies this
      ensures SteppedFrom(old(key), old(ctr), old(origin), old(drawn))
      ensures r == Ranged(a, b, UnitOf(p, philox(old(ctr), key)))
    {
      match p
      case Single => r := FRange(a, b);
      case Double => r := DRange(a, b);
    }

    /**
     * `normal<float>()` pairs words 0 and 1; `normal<double>()` pairs the
     * 64-bit values (word 0, word 1) and (word 2, word 3).
     */
    method Normal(p: Precision) returns (r: BoxMuller)
      requires Valid()
      modifies this
      ensures SteppedFrom(old(key), old(ctr), old(origin), old(drawn))
      ensures r == BoxMullerOf(p, philox(old(ctr), key))
    {
      var u := philox(ctr, key);
      ctr := Advance(ctr);
      drawn := drawn + 1;
      match p
      case Single =>
        r := BoxMullerFloat(u.w0, u.w1);
      case Double =>
        var u64_0 := Pack64(u.w0, u.w1);
        var u64_1 := Pack64(u.w2, u.w3);
        r := BoxMullerDouble(u64_0, u64_1);
    }
  }

  /** Makes one draw of kind `op` on `g`. */
  method Perform(g: Saru, op: Op) returns (d: Draw)
    requires g.Valid()
    modifies g
    ensures g.SteppedFrom(old(g.key), old(g.ctr), old(g.origin), old(g.drawn))
    ensures d == DrawOf(op, g.philox(old(g.ctr), old(g.key)))
  {
    match op
    case U32Op =>
      var w := g.U32();
      d := Word(w);
    case UnitOp(p) =>
      var x := g.S(p);
      d := Uniform(x);
    case RangedOp(p, a, b) =>
      d := g.SRange(p, a, b);
    case NormalOp(p) =>
      var n := g.Normal(p);
      d := Gaussian(n);
  }

  /**
   * Constructs a generator and makes the draws `ops` on it. What comes back
   * depends only on the constructor arguments and the kinds of draw, so two
   * generators built alike and drawn alike agree value for value.
   */
  method DrawFresh(philox: BlockFn, seed1: u32, seed2: u32, counter1: u32, counter2: u32,
                   counter3: u32, ops: seq<Op>) returns (out: seq<Draw>)
    ensures out == Expected(philox, Key(seed1, seed2), InitialCounter(counter1, counter2, counter3), ops)
  {
    var g := new Saru(philox, seed1, seed2, counter1, counter2, counter3);
    ghost var key := Key(seed1, seed2);
    ghost var origin := InitialCounter(counter1, counter2, counter3);
    out := [];
    for i := 0 to |ops|
      invariant g.Valid() && g.philox == philox && g.key == key
      invariant g.origin == origin && g.drawn == i
      invariant out == Expected(philox, key, origin, ops[..i])
    {
      var d := Perform(g, ops[i]);
      assert ops[..i + 1] == ops[..i] + [ops[i]];
      out := out + [d];
    }
    assert ops[..|ops|] == ops;
  }
}
