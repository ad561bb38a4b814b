/** The synthetic records of the storage benchmark, each generated by its ordinal from one seed. */
module Dataset {
  import opened Wrappers
  import opened Words

  type byte = x: nat | x < 256

  // ------------------------------------------------------------- bits of numbers

  function Xor(a: nat, b: nat): nat
    decreases a + b
  {
    if a == 0 && b == 0 then 0 else 2 * Xor(a / 2, b / 2) + (a + b) % 2
  }

  function Shr(x: nat, n: nat): nat
    decreases n
  {
    if n == 0 then x else Shr(x / 2, n - 1)
  }

  function Pow2(k: nat): (r: nat)
    ensures r > 0
  {
    if k == 0 then 1 else 2 * Pow2(k - 1)
  }

  lemma {:induction false} XorHalf(a: nat, b: nat)
    ensures Xor(a, b) / 2 == Xor(a / 2, b / 2) && Xor(a, b) % 2 == (a + b) % 2
  {
  }

  lemma {:induction false} XorZero(a: nat)
    ensures Xor(a, 0) == a && Xor(0, a) == a
  {
    if a > 0 {
      XorZero(a / 2);
    }
  }

  lemma {:induction false} XorSelf(a: nat)
    ensures Xor(a, a) == 0
  {
    if a > 0 {
      XorSelf(a / 2);
    }
  }

  lemma {:induction false} XorAssociates(a: nat, b: nat, c: nat)
    ensures Xor(Xor(a, b), c) == Xor(a, Xor(b, c))
    decreases a + b + c
  {
    if a > 0 || b > 0 || c > 0 {
      XorAssociates(a / 2, b / 2, c / 2);
      AssociateStep(a, b, c);
    } else {
      XorZero(0);
    }
  }

  lemma {:induction false} AssociateStep(a: nat, b: nat, c: nat)
    requires Xor(Xor(a / 2, b / 2), c / 2) == Xor(a / 2, Xor(b / 2, c / 2))
    ensures Xor(Xor(a, b), c) == Xor(a, Xor(b, c))
  {
    hide Xor;
    XorHalf(a, b);
    XorHalf(b, c);
    XorHalf(Xor(a, b), c);
    XorHalf(a, Xor(b, c));
    Parity(a, b, c, Xor(a, b), Xor(b, c));
    SameHalves(Xor(Xor(a, b), c), Xor(a, Xor(b, c)));
  }

  lemma {:induction false} Parity(a: nat, b: nat, c: nat, p: nat, q: nat)
    requires p % 2 == (a + b) % 2 && q % 2 == (b + c) % 2
    ensures (p + c) % 2 == (a + q) % 2
  {
  }

  lemma {:induction false} SameHalves(x: nat, y: nat)
    ensures x / 2 == y / 2 && x % 2 == y % 2 ==> x == y
  {
  }

  /** What is mixed in twice cancels. */
  lemma {:induction false} XorCancels(a: nat, b: nat)
    ensures Xor(Xor(a, b), b) == a && Xor(b, Xor(b, a)) == a
  {
    XorAssociates(a, b, b);
    XorAssociates(b, b, a);
    XorSelf(b);
    XorZero(a);
  }

  lemma {:induction false} XorFits(a: nat, b: nat, k: nat)
    requires a < Pow2(k) && b < Pow2(k)
    ensures Xor(a, b) < Pow2(k)
    decreases k
  {
    if k > 0 && (a > 0 || b > 0) {
      XorFits(a / 2, b / 2, k - 1);
    }
  }

  lemma {:induction false} ShrXor(a: nat, b: nat, n: nat)
    ensures Shr(Xor(a, b), n) == Xor(Shr(a, n), Shr(b, n))
    decreases n
  {
    if n > 0 {
      XorHalf(a, b);
      ShrXor(a / 2, b / 2, n - 1);
    }
  }

  lemma {:induction false} ShrAgain(x: nat, m: nat, n: nat)
    ensures Shr(Shr(x, m), n) == Shr(x, m + n)
    decreases m
  {
    if m > 0 {
      ShrAgain(x / 2, m - 1, n);
    }
  }

  lemma {:induction false} ShrOut(x: nat, n: nat)
    requires x < Pow2(n)
    ensures Shr(x, n) == 0
    decreases n
  {
    if n > 0 {
      ShrOut(x / 2, n - 1);
    }
  }

  lemma {:induction false} ShrFits(x: nat, n: nat, k: nat)
    requires x < Pow2(k)
    ensures Shr(x, n) < Pow2(k)
    decreases n
  {
    if n > 0 {
      ShrFits(x / 2, n - 1, k);
    }
  }

  lemma {:induction false} Pow2Grows(m: nat, n: nat)
    requires m <= n
    ensures Pow2(m) <= Pow2(n)
    decreases n - m
  {
    if m < n {
      Pow2Grows(m + 1, n);
    }
  }

  lemma {:induction false} Pow2Adds(m: nat, n: nat)
    ensures Pow2(m + n) == Pow2(m) * Pow2(n)
    decreases m
  {
    if m > 0 {
      Pow2Adds(m - 1, n);
    }
  }

  lemma {:induction false} SixteenIsPow2()
    ensures Pow2(4) == 16
  {
  }

  lemma {:induction false} WordIsPow2()
    ensures WORD == Pow2(64)
  {
    hide Pow2;
    SixteenIsPow2();
    Pow2Adds(4, 4);
    Pow2Adds(8, 8);
    Pow2Adds(16, 16);
    Pow2Adds(32, 32);
  }

  // ------------------------------------------------------------------ the mixer

  /** `value ^ (value >> s)`. */
  function Fold(x: nat, s: nat): nat {
    Xor(x, Shr(x, s))
  }

  /** Folding undone, for shifts of more than a third of the width. */
  function Unfold(y: nat, s: nat): nat {
    Xor(Xor(y, Shr(y, s)), Shr(y, 2 * s))
  }

  lemma {:induction false} FoldUndone(x: nat, s: nat)
    requires x < Pow2(64) && 3 * s >= 64
    ensures Unfold(Fold(x, s), s) == x
  {
    hide Xor, Shr, Pow2;
    var y, u, v := Fold(x, s), Shr(x, s), Shr(x, 2 * s);
    ShrXor(x, u, s);
    ShrAgain(x, s, s);
    ShrXor(x, u, 2 * s);
    ShrAgain(x, s, 2 * s);
    Gone(x, s);
    XorZero(v);
    assert Shr(y, s) == Xor(u, v) && Shr(y, 2 * s) == v;
    XorAssociates(Xor(x, u), u, v);
    XorCancels(x, u);
    XorCancels(x, v);
  }

  lemma {:induction false} UnfoldUndone(y: nat, s: nat)
    requires y < Pow2(64) && 3 * s >= 64
    ensures Fold(Unfold(y, s), s) == y
  {
    hide Xor, Shr, Pow2;
    var u, v := Shr(y, s), Shr(y, 2 * s);
    ShrXor(Xor(y, u), v, s);
    ShrXor(y, u, s);
    ShrAgain(y, s, s);
    ShrAgain(y, 2 * s, s);
    Gone(y, s);
    XorZero(Xor(u, v));
    assert Shr(Unfold(y, s), s) == Xor(u, v);
    XorAssociates(y, u, v);
    XorCancels(y, Xor(u, v));
  }

  lemma {:induction false} Gone(x: nat, s: nat)
    requires x < Pow2(64) && 3 * s >= 64
    ensures Shr(x, 3 * s) == 0
  {
    Pow2Grows(64, 3 * s);
    ShrOut(x, 3 * s);
  }

  lemma {:induction false} FoldFits(x: nat, s: nat)
    requires x < Pow2(64)
    ensures Fold(x, s) < Pow2(64) && Unfold(x, s) < Pow2(64)
  {
    ShrFits(x, s, 64);
    ShrFits(x, 2 * s, 64);
    XorFits(x, Shr(x, s), 64);
    XorFits(Xor(x, Shr(x, s)), Shr(x, 2 * s), 64);
  }

  lemma {:induction false} Remainder(a: int, q: int, r: nat)
    requires a == q * WORD + r && r < WORD
    ensures a % WORD == r
  {
  }

  /** Multiplying by a factor and then by its inverse, both modulo 2^64, changes nothing. */
  lemma {:induction false} TimesUndone(x: nat, c: nat, d: nat)
    requires x < WORD && (c * d) % WORD == 1
    ensures (((x * c) % WORD) * d) % WORD == x
  {
    var q, k := (x * c) / WORD, (c * d) / WORD;
    var y := (x * c) % WORD;
    assert x * c == q * WORD + y && c * d == k * WORD + 1;
    calc {
      y * d;
      (x * c - q * WORD) * d;
      x * (c * d) - (q * d) * WORD;
      x * (k * WORD + 1) - (q * d) * WORD;
      (x * k - q * d) * WORD + x;
    }
    Remainder(y * d, x * k - q * d, x);
  }

  const GAMMA: nat := 0x9e37_79b9_7f4a_7c15
  const FACTOR1: nat := 0xbf58_476d_1ce4_e5b9
  const FACTOR2: nat := 0x94d0_49bb_1331_11eb
  const INVERSE1: nat := 0x96de_1b17_3f11_9089
  const INVERSE2: nat := 0x3196_42b2_d24d_8ec3

  function Times(x: nat, c: nat): u64 {
    (x * c) % WORD
  }

  /** `splitmix64`. */
  function SplitMix(x: u64): u64 {
    WordIsPow2();
    FoldFits(Times(Fold(Times(Fold((x + GAMMA) % WORD, 30), FACTOR1), 27), FACTOR2), 31);
    Fold(Times(Fold(Times(Fold((x + GAMMA) % WORD, 30), FACTOR1), 27), FACTOR2), 31)
  }

  function Unmix(y: u64): u64 {
    (Unfold(Times(Unfold(Times(Unfold(y, 31), INVERSE2), 27), INVERSE1), 30) + WORD - GAMMA) % WORD
  }

  lemma {:induction false} InverseFactors()
    ensures (FACTOR1 * INVERSE1) % WORD == 1 && (FACTOR2 * INVERSE2) % WORD == 1
    ensures (INVERSE1 * FACTOR1) % WORD == 1 && (INVERSE2 * FACTOR2) % WORD == 1
  {
  }

  /** The first three steps of a mix, and how they are undone. */
  lemma {:induction false} AddUndone(x: u64)
    ensures ((x + GAMMA) % WORD + WORD - GAMMA) % WORD == x
    ensures ((x + WORD - GAMMA) % WORD + GAMMA) % WORD == x
  {
  }

  lemma {:induction false} MulUndone(x: u64)
    ensures Times(Times(x, FACTOR1), INVERSE1) == x && Times(Times(x, FACTOR2), INVERSE2) == x
    ensures Times(Times(x, INVERSE1), FACTOR1) == x && Times(Times(x, INVERSE2), FACTOR2) == x
  {
    InverseFactors();
    TimesUndone(x, FACTOR1, INVERSE1);
    TimesUndone(x, FACTOR2, INVERSE2);
    TimesUndone(x, INVERSE1, FACTOR1);
    TimesUndone(x, INVERSE2, FACTOR2);
  }

  /** `splitmix64` is a permutation of the 64-bit words: every mix can be undone, and every word is a mix. */
  lemma {:induction false} MixIsPermutation(x: u64)
    ensures Unmix(SplitMix(x)) == x && SplitMix(Unmix(x)) == x
  {
    MixUndone(x);
    UnmixUndone(x);
  }

  lemma {:induction false} MixUndone(x: u64)
    ensures Unmix(SplitMix(x)) == x
  {
    hide Fold, Unfold, Times, Pow2;
    WordIsPow2();
    var a: u64 := (x + GAMMA) % WORD;
    FoldFits(a, 30);
    FoldUndone(a, 30);
    var b: u64 := Times(Fold(a, 30), FACTOR1);
    MulUndone(Fold(a, 30));
    FoldFits(b, 27);
    FoldUndone(b, 27);
    var c: u64 := Times(Fold(b, 27), FACTOR2);
    MulUndone(Fold(b, 27));
    FoldFits(c, 31);
    FoldUndone(c, 31);
    AddUndone(x);
  }

  lemma {:induction false} UnmixUndone(y: u64)
    ensures SplitMix(Unmix(y)) == y
  {
    hide Fold, Unfold, Times, Pow2;
    WordIsPow2();
    FoldFits(y, 31);
    UnfoldUndone(y, 31);
    var c: u64 := Times(Unfold(y, 31), INVERSE2);
    MulUndone(Unfold(y, 31));
    FoldFits(c, 27);
    UnfoldUndone(c, 27);
    var b: u64 := Times(Unfold(c, 27), INVERSE1);
    MulUndone(Unfold(c, 27));
    FoldFits(b, 30);
    UnfoldUndone(b, 30);
    AddUndone(Unfold(b, 30));
  }

  // ------------------------------------------------------------------- records

  /** The `n` low bytes of a number, lowest first. */
  function LowBytes(x: nat, n: nat): (r: seq<byte>)
    ensures |r| == n
    decreases n
  {
    if n == 0 then [] else [x % 256] + LowBytes(x / 256, n - 1)
  }

  function Valued(bytes: seq<byte>): nat {
    if |bytes| == 0 then 0 else bytes[0] + 256 * Valued(bytes[1..])
  }

  lemma {:induction false} BytesValued(x: nat, n: nat)
    requires x < Pow2(8 * n)
    ensures Valued(LowBytes(x, n)) == x
    decreases n
  {
    if n > 0 {
      Pow2Adds(8, 8 * (n - 1));
      assert Pow2(8) == 256;
      BytesValued(x / 256, n - 1);
      assert LowBytes(x, n)[1..] == LowBytes(x / 256, n - 1);
    }
  }

  function Reversed(bytes: seq<byte>): (r: seq<byte>)
    ensures |r| == |bytes|
  {
    if |bytes| == 0 then [] else Reversed(bytes[1..]) + [bytes[0]]
  }

  /** `ordinal.rotate_left(17)`. */
  function Rotate17(x: u64): u64 {
    (x % 0x8000_0000_0000) * 0x2_0000 + x / 0x8000_0000_0000
  }

  lemma {:induction false} RotateTells(x: u64, y: u64)
    requires Rotate17(x) == Rotate17(y)
    ensures x == y
  {
  }

  function Seeded(seed: u64, ordinal: u64): u64 {
    WordIsPow2();
    XorFits(seed, Rotate17(ordinal), 64);
    Xor(seed, Rotate17(ordinal))
  }

  /** The filler: successive mixes, each laid out low byte first, cut to the space there is. */
  function Filler(state: u64, n: nat): (r: seq<byte>)
    ensures |r| == n
    decreases n
  {
    if n <= 8 then LowBytes(SplitMix(state), 8)[..n]
    else LowBytes(SplitMix(state), 8) + Filler(SplitMix(state), n - 8)
  }

  /** A record's value: its ordinal and subject, high byte first, then filler. */
  function Value(seed: u64, subject: nat, ordinal: u64, size: nat): (r: seq<byte>)
    requires size >= 12
    ensures |r| == size
  {
    Reversed(LowBytes(ordinal, 8)) + Reversed(LowBytes(subject, 4)) + Filler(Seeded(seed, ordinal), size - 12)
  }

  /** Different ordinals are seeded differently, and so begin their filler with different words. */
  lemma {:induction false} FillersDiffer(seed: u64, a: u64, b: u64, subjectA: nat, subjectB: nat, size: nat)
    requires a != b && size >= 20
    ensures Value(seed, subjectA, a, size)[12..20] != Value(seed, subjectB, b, size)[12..20]
  {
    hide SplitMix, LowBytes, Filler;
    FirstWord(seed, subjectA, a, size);
    FirstWord(seed, subjectB, b, size);
    if LowBytes(SplitMix(Seeded(seed, a)), 8) == LowBytes(SplitMix(Seeded(seed, b)), 8) {
      WordIsPow2();
      BytesValued(SplitMix(Seeded(seed, a)), 8);
      BytesValued(SplitMix(Seeded(seed, b)), 8);
      MixUndone(Seeded(seed, a));
      MixUndone(Seeded(seed, b));
      XorCancels(Rotate17(a), seed);
      XorCancels(Rotate17(b), seed);
      RotateTells(a, b);
      assert false;
    }
  }

  lemma {:induction false} FirstWord(seed: u64, subject: nat, ordinal: u64, size: nat)
    requires size >= 20
    ensures Value(seed, subject, ordinal, size)[12..20] == LowBytes(SplitMix(Seeded(seed, ordinal)), 8)
  {
  }

  // ---------------------------------------------------------------------- keys

  function Digit(d: nat): char
    requires d < 16
  {
    if d < 10 then '0' + d as char else 'a' + (d - 10) as char
  }

  /** A number in base 10 or 16, padded with zeros to at least `width` digits. */
  function Spelled(x: nat, base: nat, width: nat): string
    requires 1 < base <= 16
    decreases x, width
  {
    if x < base && width <= 1 then [Digit(x)]
    else Spelled(x / base, base, if width > 0 then width - 1 else 0) + [Digit(x % base)]
  }

  /** `format!("subject/{subject:08}/record/{ordinal:016x}")`. */
  function Key(subject: nat, ordinal: u64): string {
    "subject/" + Spelled(subject, 10, 8) + "/record/" + Spelled(ordinal, 16, 16)
  }

  lemma {:induction false} DigitTells(d: nat, e: nat)
    requires d < 16 && e < 16 && Digit(d) == Digit(e)
    ensures d == e
  {
  }

  /** Sixteen digits are enough for any word, and then exactly sixteen are written. */
  lemma {:induction false} SpelledWidth(x: nat, width: nat)
    requires width > 0 && x < Pow2(4 * width)
    ensures |Spelled(x, 16, width)| == width
    decreases width
  {
    SixteenIsPow2();
    if width > 1 {
      Pow2Adds(4, 4 * (width - 1));
      SpelledWidth(x / 16, width - 1);
    }
  }

  lemma {:induction false} SpelledTells(x: nat, y: nat, width: nat)
    requires width > 0 && x < Pow2(4 * width) && y < Pow2(4 * width) && Spelled(x, 16, width) == Spelled(y, 16, width)
    ensures x == y
    decreases width
  {
    SixteenIsPow2();
    if width == 1 {
      DigitTells(x, y);
    } else {
      Pow2Adds(4, 4 * (width - 1));
      SpelledWidth(x, width);
      SpelledWidth(y, width);
      var a, b := Spelled(x, 16, width), Spelled(y, 16, width);
      assert a[width - 1] == Digit(x % 16) && b[width - 1] == Digit(y % 16);
      DigitTells(x % 16, y % 16);
      assert a[..width - 1] == Spelled(x / 16, 16, width - 1) && b[..width - 1] == Spelled(y / 16, 16, width - 1);
      SpelledTells(x / 16, y / 16, width - 1);
    }
  }

  /** A key names its ordinal: different records never share one, whatever their subjects. */
  lemma {:induction false} KeyTells(s: nat, a: u64, t: nat, b: u64)
    requires Key(s, a) == Key(t, b)
    ensures a == b
  {
    hide Spelled;
    WordIsPow2();
    SpelledWidth(a, 16);
    SpelledWidth(b, 16);
    var k := Key(s, a);
    assert k[|k| - 16..] == Spelled(a, 16, 16) == Spelled(b, 16, 16);
    SpelledTells(a, b, 16);
  }

  datatype Config = Config(seed: u64, records: nat, subjects: nat, valueBytes: nat)

  /** The part of `validate` that generation relies on. */
  predicate Validates(c: Config) {
    0 < c.subjects <= c.records && c.subjects < 0x1_0000_0000 && 32 <= c.valueBytes <= 65_536 && c.records < WORD
  }

  datatype Refusal = OutsideDataset

  datatype Made = Made(subject: nat, key: string, value: array<byte>)

  /** `record`: the value buffer is filled in place, eight bytes at a time. */
  method Record(c: Config, ordinal: u64) returns (r: Result<Made, Refusal>)
    requires Validates(c)
    ensures r.Err? <==> ordinal >= c.records
    ensures r.Ok? ==> r.value.subject == ordinal % c.subjects && r.value.key == Key(r.value.subject, ordinal)
    ensures r.Ok? ==> fresh(r.value.value)
                      && r.value.value[..] == Value(c.seed, r.value.subject, ordinal, c.valueBytes)
  {
    hide SplitMix, Filler, LowBytes, Seeded, Spelled;
    if ordinal >= c.records {
      return Err(OutsideDataset);
    }
    var subject := ordinal % c.subjects;
    var head := Reversed(LowBytes(ordinal, 8)) + Reversed(LowBytes(subject, 4));
    var value := new byte[c.valueBytes](_ => 0);
    forall i | 0 <= i < 12 {
      value[i] := head[i];
    }
    FillRest(value, Seeded(c.seed, ordinal));
    assert value[..] == value[..12] + value[12..];
    assert value[..12] == head;
    r := Ok(Made(subject, Key(subject, ordinal), value));
  }

  method FillRest(value: array<byte>, start: u64)
    requires value.Length >= 12
    modifies value
    ensures value[..12] == old(value[..12]) && value[12..] == Filler(start, value.Length - 12)
  {
    hide SplitMix, Filler, LowBytes;
    var state, at := start, 12;
    while at < value.Length
      invariant 12 <= at <= value.Length && value[..12] == old(value[..12])
      invariant value[12..at] + Filler(state, value.Length - at) == Filler(start, value.Length - 12)
    {
      FillerStep(state, value.Length - at);
      ghost var before := value[12..at];
      ghost var rest := value.Length - at;
      state := SplitMix(state);
      var bytes := LowBytes(state, 8);
      var length := if value.Length - at < 8 then value.Length - at else 8;
      forall i | 0 <= i < length {
        value[at + i] := bytes[i];
      }
      at := at + length;
      assert value[12..at] == before + bytes[..length];
    }
  }

  lemma {:induction false} FillerStep(state: u64, n: nat)
    requires n > 0
    ensures var bytes := LowBytes(SplitMix(state), 8);
            Filler(state, n) == bytes[..if n < 8 then n else 8] + Filler(SplitMix(state), if n < 8 then 0 else n - 8)
  {
    hide SplitMix, LowBytes;
  }
}
