/** SHA-256 as the benchmark tools compute it, against the definition in FIPS 180-4, and hexadecimal text. */
module Sha256 {
  import opened Wrappers
  import opened Words

  type Word = bv32

  // ------------------------------------------- FIPS 180-4, as functions

  // Section 5.3.3.
  const INITIAL: seq<Word> := [
    0x6a09_e667, 0xbb67_ae85, 0x3c6e_f372, 0xa54f_f53a,
    0x510e_527f, 0x9b05_688c, 0x1f83_d9ab, 0x5be0_cd19]

  // Section 4.2.2.
  const ROUND_CONSTANTS: seq<Word> := [
    0x428a_2f98, 0x7137_4491, 0xb5c0_fbcf, 0xe9b5_dba5, 0x3956_c25b, 0x59f1_11f1, 0x923f_82a4, 0xab1c_5ed5,
    0xd807_aa98, 0x1283_5b01, 0x2431_85be, 0x550c_7dc3, 0x72be_5d74, 0x80de_b1fe, 0x9bdc_06a7, 0xc19b_f174,
    0xe49b_69c1, 0xefbe_4786, 0x0fc1_9dc6, 0x240c_a1cc, 0x2de9_2c6f, 0x4a74_84aa, 0x5cb0_a9dc, 0x76f9_88da,
    0x983e_5152, 0xa831_c66d, 0xb003_27c8, 0xbf59_7fc7, 0xc6e0_0bf3, 0xd5a7_9147, 0x06ca_6351, 0x1429_2967,
    0x27b7_0a85, 0x2e1b_2138, 0x4d2c_6dfc, 0x5338_0d13, 0x650a_7354, 0x766a_0abb, 0x81c2_c92e, 0x9272_2c85,
    0xa2bf_e8a1, 0xa81a_664b, 0xc24b_8b70, 0xc76c_51a3, 0xd192_e819, 0xd699_0624, 0xf40e_3585, 0x106a_a070,
    0x19a4_c116, 0x1e37_6c08, 0x2748_774c, 0x34b0_bcb5, 0x391c_0cb3, 0x4ed8_aa4a, 0x5b9c_ca4f, 0x682e_6ff3,
    0x748f_82ee, 0x78a5_636f, 0x84c8_7814, 0x8cc7_0208, 0x90be_fffa, 0xa450_6ceb, 0xbef9_a3f7, 0xc671_78f2]

  // Section 4.1.2.
  function Ch(x: Word, y: Word, z: Word): Word {
    (x & y) ^ (!x & z)
  }

  function Maj(x: Word, y: Word, z: Word): Word {
    (x & y) ^ (x & z) ^ (y & z)
  }

  function BigSigma0(x: Word): Word {
    x.RotateRight(2) ^ x.RotateRight(13) ^ x.RotateRight(22)
  }

  function BigSigma1(x: Word): Word {
    x.RotateRight(6) ^ x.RotateRight(11) ^ x.RotateRight(25)
  }

  function SmallSigma0(x: Word): Word {
    x.RotateRight(7) ^ x.RotateRight(18) ^ (x >> 3)
  }

  function SmallSigma1(x: Word): Word {
    x.RotateRight(17) ^ x.RotateRight(19) ^ (x >> 10)
  }

  function FromBytes(a: bv8, b: bv8, c: bv8, d: bv8): Word {
    ((a as Word) << 24) | ((b as Word) << 16) | ((c as Word) << 8) | (d as Word)
  }

  function ToBytes(w: Word): Bytes {
    [((w >> 24) & 0xff) as bv8, ((w >> 16) & 0xff) as bv8, ((w >> 8) & 0xff) as bv8, (w & 0xff) as bv8]
  }

  /** Section 6.2.2, step 1: the message schedule, word by word. */
  function Schedule(block: Bytes, t: nat): Word
    requires |block| == 64 && t < 64
  {
    if t < 16 then FromBytes(block[4 * t], block[4 * t + 1], block[4 * t + 2], block[4 * t + 3])
    else
      Mixed(Schedule(block, t - 2), Schedule(block, t - 7), Schedule(block, t - 15), Schedule(block, t - 16))
  }

  function Mixed(w2: Word, w7: Word, w15: Word, w16: Word): Word {
    SmallSigma1(w2) + w7 + SmallSigma0(w15) + w16
  }

  /** The eight working variables. */
  datatype Working = Working(a: Word, b: Word, c: Word, d: Word, e: Word, f: Word, g: Word, h: Word)

  /** Addition modulo 2^32. */
  function Plus(x: Word, y: Word): Word {
    x + y
  }

  function Temporary1(e: Word, f: Word, g: Word, h: Word, k: Word, w: Word): Word {
    h + BigSigma1(e) + Ch(e, f, g) + k + w
  }

  function Temporary2(a: Word, b: Word, c: Word): Word {
    BigSigma0(a) + Maj(a, b, c)
  }

  /** Section 6.2.2, step 3, for one round. */
  function Round(v: Working, k: Word, w: Word): Working {
    var t1, t2 := Temporary1(v.e, v.f, v.g, v.h, k, w), Temporary2(v.a, v.b, v.c);
    Working(Plus(t1, t2), v.a, v.b, v.c, Plus(v.d, t1), v.e, v.f, v.g)
  }

  function RoundConstant(t: nat): Word
    requires t < 64
  {
    ROUND_CONSTANTS[t]
  }

  function Rounds(v: Working, block: Bytes, t: nat): Working
    requires |block| == 64 && t <= 64
  {
    if t == 0 then v else Round(Rounds(v, block, t - 1), RoundConstant(t - 1), Schedule(block, t - 1))
  }

  function Added(hash: Working, v: Working): Working {
    Working(hash.a + v.a, hash.b + v.b, hash.c + v.c, hash.d + v.d,
            hash.e + v.e, hash.f + v.f, hash.g + v.g, hash.h + v.h)
  }

  /** Section 6.2.2, steps 2 to 4: one block into the intermediate hash value. */
  function Compress(hash: Working, block: Bytes): Working
    requires |block| == 64
  {
    Added(hash, Rounds(hash, block, 64))
  }

  const START: Working :=
    Working(INITIAL[0], INITIAL[1], INITIAL[2], INITIAL[3], INITIAL[4], INITIAL[5], INITIAL[6], INITIAL[7])

  function HashBlocks(padded: Bytes, n: nat): Working
    requires 64 * n <= |padded|
  {
    if n == 0 then START else Compress(HashBlocks(padded, n - 1), padded[64 * (n - 1)..64 * n])
  }

  function Zeros(n: nat): (r: Bytes)
    ensures |r| == n
  {
    seq(n, _ => 0)
  }

  function BigEndian(bits: bv64): Bytes {
    ToBytes((bits >> 32) as Word) + ToBytes((bits & 0xffff_ffff) as Word)
  }

  function LengthBytes(bits: nat): (r: Bytes)
    requires bits <= U64_MAX
    ensures |r| == 8
  {
    BigEndian(bits as bv64)
  }

  /** Section 5.1.1: how many zero bytes bring a message and its marker to eight short of a block. */
  function Gap(n: nat): (k: nat)
    ensures k < 64 && (n + 1 + k) % 64 == 56
  {
    (119 - n % 64) % 64
  }

  const MAX_MESSAGE: nat := 0x2000_0000_0000_0000

  /** Section 5.1.1, on the messages whose bit length 64 bits can hold. */
  function Pad(message: Bytes): Bytes
    requires |message| < MAX_MESSAGE
  {
    message + [0x80] + Zeros(Gap(|message|)) + LengthBytes(8 * |message|)
  }

  lemma {:induction false} Aligned(n: nat)
    requires n % 64 == 56
    ensures (n + 8) % 64 == 0
  {
  }

  /** A padded message is a whole number of blocks. */
  lemma {:induction false} PadAligned(message: Bytes)
    requires |message| < MAX_MESSAGE
    ensures |Pad(message)| % 64 == 0
  {
    hide Gap, Zeros, LengthBytes;
    Aligned(|message| + 1 + Gap(|message|));
  }

  function Output(v: Working): Bytes {
    ToBytes(v.a) + ToBytes(v.b) + ToBytes(v.c) + ToBytes(v.d)
    + ToBytes(v.e) + ToBytes(v.f) + ToBytes(v.g) + ToBytes(v.h)
  }

  /** Section 6.2. */
  function Digest(message: Bytes): Bytes
    requires |message| < MAX_MESSAGE
  {
    var padded := Pad(message);
    Output(HashBlocks(padded, |padded| / 64))
  }

  // ------------------------------------------------------- the code, step by step

  function BitLength(n: nat): (bits: nat)
    ensures bits <= U64_MAX
  {
    if 8 * n > U64_MAX then U64_MAX else 8 * n
  }

  lemma {:induction false} GapExact(length: nat, n: nat)
    requires n <= Gap(length)
    ensures (length + 1 + n) % 64 == 56 <==> n == Gap(length)
  {
  }

  lemma {:induction false} ZerosMore(n: nat)
    ensures Zeros(n) + [0] == Zeros(n + 1)
  {
  }

  /** The padding loop: zeros while the length is not 56 modulo 64. */
  method FillZeros(marked: Bytes) returns (filled: Bytes)
    requires |marked| > 0
    ensures filled == marked + Zeros(Gap(|marked| - 1))
  {
    hide Gap, Zeros;
    filled := marked;
    ghost var n: nat := 0;
    assert marked == marked + Zeros(0);
    GapExact(|marked| - 1, 0);
    while |filled| % 64 != 56
      invariant n <= Gap(|marked| - 1) && filled == marked + Zeros(n)
      invariant |filled| % 64 == 56 <==> n == Gap(|marked| - 1)
      decreases Gap(|marked| - 1) - n
    {
      ZerosMore(n);
      assert filled + [0] == marked + (Zeros(n) + [0]);
      filled := filled + [0];
      n := n + 1;
      GapExact(|marked| - 1, n);
    }
  }

  /** `sha256`'s padding, with the bit length saturating as the code's does. */
  method Padded(message: Bytes) returns (padded: Bytes)
    ensures |padded| % 64 == 0
    ensures |message| < MAX_MESSAGE ==> padded == Pad(message)
  {
    hide Gap, Zeros, LengthBytes;
    var filled := FillZeros(message + [0x80]);
    Aligned(|filled|);
    padded := filled + LengthBytes(BitLength(|message|));
  }

  /** The word the code appends, added in another order than the standard's. */
  function NextWord(w16: Word, w15: Word, w7: Word, w2: Word): Word {
    w16 + SmallSigma0(w15) + w7 + SmallSigma1(w2)
  }

  lemma {:induction false} ScheduleNext(block: Bytes, t: nat)
    requires |block| == 64 && 16 <= t < 64
    ensures Schedule(block, t)
            == NextWord(Schedule(block, t - 16), Schedule(block, t - 15), Schedule(block, t - 7),
                        Schedule(block, t - 2))
  {
    hide Mixed, NextWord, FromBytes;
    MixedIs(Schedule(block, t - 2), Schedule(block, t - 7), Schedule(block, t - 15), Schedule(block, t - 16));
  }

  lemma {:induction false} MixedIs(w2: Word, w7: Word, w15: Word, w16: Word)
    ensures Mixed(w2, w7, w15, w16) == NextWord(w16, w15, w7, w2)
  {
  }

  lemma {:induction false} ScheduleFirst(block: Bytes, t: nat)
    requires |block| == 64 && t < 16
    ensures Schedule(block, t) == FromBytes(block[4 * t], block[4 * t + 1], block[4 * t + 2], block[4 * t + 3])
  {
    hide FromBytes, Mixed;
  }

  /** The first sixteen words of the schedule, then the other forty-eight. */
  method Expand(block: Bytes) returns (schedule: array<Word>)
    requires |block| == 64
    ensures fresh(schedule) && schedule.Length == 64
    ensures forall t :: 0 <= t < 64 ==> schedule[t] == Schedule(block, t)
  {
    hide Schedule, NextWord, FromBytes;
    schedule := new Word[64];
    for t := 0 to 16
      invariant forall j :: 0 <= j < t ==> schedule[j] == Schedule(block, j)
    {
      ScheduleFirst(block, t);
      schedule[t] := FromBytes(block[4 * t], block[4 * t + 1], block[4 * t + 2], block[4 * t + 3]);
    }
    for t := 16 to 64
      invariant forall j :: 0 <= j < t ==> schedule[j] == Schedule(block, j)
    {
      ScheduleNext(block, t);
      schedule[t] := NextWord(schedule[t - 16], schedule[t - 15], schedule[t - 7], schedule[t - 2]);
    }
  }

  /** The sixty-four rounds, in eight variables that shift along. */
  method Scramble(hash: Working, block: Bytes, schedule: array<Word>) returns (v: Working)
    requires |block| == 64 && schedule.Length == 64
    requires forall t :: 0 <= t < 64 ==> schedule[t] == Schedule(block, t)
    ensures v == Rounds(hash, block, 64)
  {
    hide Schedule, Temporary1, Temporary2, Plus, RoundConstant;
    var Working(a, b, c, d, e, f, g, h) := hash;
    for t := 0 to 64
      invariant Working(a, b, c, d, e, f, g, h) == Rounds(hash, block, t)
    {
      var temporary1 := Temporary1(e, f, g, h, RoundConstant(t), schedule[t]);
      var temporary2 := Temporary2(a, b, c);
      h := g;
      g := f;
      f := e;
      e := Plus(d, temporary1);
      d := c;
      c := b;
      b := a;
      a := Plus(temporary1, temporary2);
    }
    v := Working(a, b, c, d, e, f, g, h);
  }

  /** `sha256`: the code computes the standard's digest of every message the standard defines one for. */
  method Hash(message: Bytes) returns (output: Bytes)
    ensures |output| == 32
    ensures |message| < MAX_MESSAGE ==> output == Digest(message)
  {
    hide Added, Rounds, Schedule, Output, Pad;
    var padded := Padded(message);
    var state := START;
    var n := 0;
    while n < |padded| / 64
      invariant 0 <= n <= |padded| / 64
      invariant state == HashBlocks(padded, n)
    {
      var block := padded[64 * n..64 * (n + 1)];
      var schedule := Expand(block);
      var v := Scramble(state, block, schedule);
      state := Added(state, v);
      n := n + 1;
    }
    output := Output(state);
    OutputLength(state);
  }

  lemma {:induction false} OutputLength(v: Working)
    ensures |Output(v)| == 32
  {
  }

  // ------------------------------------------------------------------- padding

  /** Different messages are padded differently: the marker is the last byte before the length that is not zero. */
  lemma {:induction false} PadTells(x: Bytes, y: Bytes)
    requires |x| < MAX_MESSAGE && |y| < MAX_MESSAGE && Pad(x) == Pad(y)
    ensures x == y
  {
    hide Gap, LengthBytes;
    MarkerPlace(x);
    MarkerPlace(y);
    if |x| == |y| {
      assert x == Pad(x)[..|x|] && y == Pad(y)[..|y|];
    }
  }

  /** Where the marker of a padded message stands, and what follows it up to the length. */
  lemma {:induction false} MarkerPlace(x: Bytes)
    requires |x| < MAX_MESSAGE
    ensures |Pad(x)| >= |x| + 9 && Pad(x)[..|x|] == x && Pad(x)[|x|] == 0x80
    ensures forall k :: |x| < k < |Pad(x)| - 8 ==> Pad(x)[k] == 0
  {
    hide Gap, LengthBytes;
  }

  // --------------------------------------------------------------- hexadecimal

  function HexDigit(n: bv8): char {
    if n == 0 then '0' else if n == 1 then '1' else if n == 2 then '2' else if n == 3 then '3'
    else if n == 4 then '4' else if n == 5 then '5' else if n == 6 then '6' else if n == 7 then '7'
    else if n == 8 then '8' else if n == 9 then '9' else if n == 10 then 'a' else if n == 11 then 'b'
    else if n == 12 then 'c' else if n == 13 then 'd' else if n == 14 then 'e' else 'f'
  }

  function DigitValue(c: char): Option<bv8> {
    if c == '0' then Some(0) else if c == '1' then Some(1) else if c == '2' then Some(2) else if c == '3' then Some(3)
    else if c == '4' then Some(4) else if c == '5' then Some(5) else if c == '6' then Some(6)
      else if c == '7' then Some(7)
    else if c == '8' then Some(8) else if c == '9' then Some(9) else if c == 'a' then Some(10)
      else if c == 'b' then Some(11)
    else if c == 'c' then Some(12) else if c == 'd' then Some(13) else if c == 'e' then Some(14)
      else if c == 'f' then Some(15)
    else None
  }

  lemma {:induction false} DigitBack(n: bv8)
    requires n < 16
    ensures DigitValue(HexDigit(n)) == Some(n)
  {
  }

  function High(b: bv8): bv8 {
    b >> 4
  }

  function Low(b: bv8): bv8 {
    b & 0x0f
  }

  function Joined(high: bv8, low: bv8): bv8 {
    (high << 4) | low
  }

  lemma {:induction false} NibblesJoin(b: bv8)
    ensures High(b) < 16 && Low(b) < 16 && Joined(High(b), Low(b)) == b
  {
  }

  /** The reader that `hex` has no counterpart of: lowercase pairs only. */
  function Unhex(text: string): Option<Bytes> {
    if |text| == 0 then Some([])
    else if |text| == 1 then None
    else
      var high, low, rest := DigitValue(text[0]), DigitValue(text[1]), Unhex(text[2..]);
      if high.None? || low.None? || rest.None? then None
      else Some([Joined(high.value, low.value)] + rest.value)
  }

  function HexText(bytes: Bytes): (text: string)
    ensures |text| == 2 * |bytes|
  {
    if |bytes| == 0 then ""
    else [HexDigit(High(bytes[0])), HexDigit(Low(bytes[0]))] + HexText(bytes[1..])
  }

  /** `hex`: two digits a byte, from which the bytes can be read back. */
  method Hex(bytes: Bytes) returns (text: string)
    ensures |text| == 2 * |bytes| && Unhex(text) == Some(bytes)
  {
    hide HexDigit, High, Low, Unhex;
    text := "";
    var i := 0;
    while i < |bytes|
      invariant 0 <= i <= |bytes|
      invariant text + HexText(bytes[i..]) == HexText(bytes)
    {
      assert bytes[i..][1..] == bytes[i + 1..];
      text := text + [HexDigit(High(bytes[i]))];
      text := text + [HexDigit(Low(bytes[i]))];
      i := i + 1;
    }
    assert bytes[i..] == [];
    assert text == HexText(bytes);
    HexBack(bytes);
  }

  lemma {:induction false} HexBack(bytes: Bytes)
    ensures Unhex(HexText(bytes)) == Some(bytes)
  {
    hide HexDigit, DigitValue, High, Low, Joined;
    if |bytes| > 0 {
      var text := HexText(bytes);
      assert text[2..] == HexText(bytes[1..]);
      assert text[0] == HexDigit(High(bytes[0])) && text[1] == HexDigit(Low(bytes[0]));
      HexBack(bytes[1..]);
      NibblesJoin(bytes[0]);
      DigitBack(High(bytes[0]));
      DigitBack(Low(bytes[0]));
      assert bytes == [bytes[0]] + bytes[1..];
    }
  }
}
