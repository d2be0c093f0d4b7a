/** Compile-time configuration of the generator (the `#define`s of DSP.h),
    the bitwise AND that the table lookup uses to wrap its index, and the
    packet schedule of the packetised driver. */
module Config {

  // ------- Wave header constants -------
  const ChunkSize: nat := 8228
  const SubChunkSize1: nat := 16
  const AudioFormat: nat := 1       // WAVE_FORMAT_PCM
  const NumChannels: nat := 2
  const SampleRate: nat := 48000
  const ByteRate: nat := 384000
  const BlockAlign: nat := 8
  const BitsPerSample: nat := 32
  const SubChunkSize2: nat := 8192

  // ------- Misc -------
  const CharSize: nat := 4
  const PacketSize: nat := 64
  const VolumeInterpolation: real := 0.5
  const MainVolume: real := 1.0
  const CutoffFrequency: real := 100.0

  // ------- Audio stream -------
  const NumSamples: nat := 1024
  const Frequency1: real := 100.0
  const Frequency2: real := 1000.0
  const Volume1: real := -6.0
  const Volume2: real := -10.0

  /** INT32_MAX, the scale from [-1, 1] to 32-bit PCM. */
  const Int32Max: int := 0x7FFF_FFFF

  /** Width of the `u_int16_t` counters and indices. */
  const U16Limit: nat := 0x1_0000

  // ------- Fixed-width unsigned integers -------
  type uint8 = x: int | 0 <= x < 0x100
  type uint16 = x: int | 0 <= x < U16Limit
  type uint32 = x: int | 0 <= x < 0x1_0000_0000

  /** C's conversion of a floating value to an integer: the fraction is
      discarded, rounding toward zero. */
  function TruncateTowardZero(x: real): (n: int)
    ensures n as real <= x < n as real + 1.0 || n as real - 1.0 < x <= n as real
    ensures 0.0 <= x ==> 0 <= n && n as real <= x < n as real + 1.0
    ensures x <= 0.0 ==> n <= 0 && n as real - 1.0 < x <= n as real
  {
    if x >= 0.0 then x.Floor else -((-x).Floor)
  }

  /** Bitwise AND of two non-negative integers, bit by bit from the least
      significant one, as C's `&` computes it on non-negative operands. */
  function And(a: nat, b: nat): nat
  {
    if a == 0 || b == 0 then 0
    else 2 * And(a / 2, b / 2) + (if a % 2 == 1 && b % 2 == 1 then 1 else 0)
  }

  predicate IsPowerOfTwo(n: nat)
  {
    n == 1 || (n > 1 && n % 2 == 0 && IsPowerOfTwo(n / 2))
  }

  lemma DivModUnique(x: int, d: int, q: int, r: int)
    requires 0 < d && 0 <= r < d && x == d * q + r
    ensures x / d == q && x % d == r
  {
    var q', r' := x / d, x % d;
    assert d * (q - q') == r' - r;
    if q > q' {
      MulAtLeast(d, q - q');
    } else if q < q' {
      MulAtLeast(d, q' - q);
    }
  }

  lemma MulAtLeast(d: int, k: int)
    requires 0 < d && 1 <= k
    ensures d * k >= d
  {
    assert d * k == d + d * (k - 1);
  }

  /** Dropping the lowest bit of x and reducing modulo p, then putting the bit
      back, reduces x modulo 2p. */
  lemma ModDouble(x: nat, p: nat)
    requires 0 < p
    ensures x % (2 * p) == 2 * ((x / 2) % p) + x % 2
  {
    var q := x / 2;
    assert x == 2 * q + x % 2;
    assert q == p * (q / p) + q % p;
    assert x == (2 * p) * (q / p) + (2 * (q % p) + x % 2);
    DivModUnique(x, 2 * p, q / p, 2 * (q % p) + x % 2);
  }

  /** When n is a power of two, masking with n - 1 is reduction modulo n: the
      reason the table index may wrap with `& (NUM_SAMPLES - 1)`. The converse
      is MaskIsModIff. */
  lemma {:induction false} MaskIsMod(x: nat, n: nat)
    requires IsPowerOfTwo(n)
    ensures And(x, n - 1) == x % n
  {
    if n > 1 && x > 0 {
      var h := n / 2;
      assert n == 2 * h && h >= 1;
      assert (n - 1) % 2 == 1 && (n - 1) / 2 == h - 1;
      assert And(x, n - 1) == 2 * And(x / 2, h - 1) + x % 2;
      MaskIsMod(x / 2, h);
      assert And(x, n - 1) == 2 * ((x / 2) % h) + x % 2;
      ModDouble(x, h);
      assert x % (2 * h) == x % n;
    } else if n == 1 {
      assert And(x, 0) == 0;
      DivModUnique(x, 1, x, 0);
    } else {
      assert x == 0;
      DivModUnique(0, n, 0, 0);
    }
  }

  /** A number ANDed with itself is unchanged. */
  lemma {:induction false} AndSelf(a: nat)
    ensures And(a, a) == a
  {
    if a > 0 {
      AndSelf(a / 2);
    }
  }

  /** Without a power of two the mask is not a modulus: for every other table
      length n, index n itself is not sent to n % n = 0 (with six entries,
      say, index 6 would go to 4). */
  lemma {:induction false} MaskNeedsPowerOfTwo(n: nat)
    requires n >= 1 && !IsPowerOfTwo(n)
    ensures And(n, n - 1) != n % n
  {
    var h := n / 2;
    if n % 2 == 1 {
      assert n > 1;
      assert (n - 1) / 2 == h && (n - 1) % 2 == 0;
      AndSelf(h);
      assert And(n, n - 1) == 2 * h;
    } else {
      assert h >= 1 && !IsPowerOfTwo(h);
      assert (n - 1) / 2 == h - 1 && (n - 1) % 2 == 1;
      MaskNeedsPowerOfTwo(h);
      assert And(n, n - 1) == 2 * And(h, h - 1);
    }
  }

  /** The mask `& (n - 1)` agrees with `% n` on every index exactly when n is a
      power of two. */
  lemma MaskIsModIff(n: nat)
    requires n >= 1
    ensures IsPowerOfTwo(n) <==> forall x: nat :: And(x, n - 1) == x % n
  {
    if IsPowerOfTwo(n) {
      forall x: nat
        ensures And(x, n - 1) == x % n
      {
        MaskIsMod(x, n);
      }
    } else {
      MaskNeedsPowerOfTwo(n);
    }
  }

  /** 1024 = 2^10, so the table index wrap of the oscillator is a modulus. */
  lemma NumSamplesIsPowerOfTwo()
    ensures IsPowerOfTwo(NumSamples)
  {
    assert IsPowerOfTwo(1);
    assert IsPowerOfTwo(2);
    assert IsPowerOfTwo(4);
    assert IsPowerOfTwo(8);
    assert IsPowerOfTwo(16);
    assert IsPowerOfTwo(32);
    assert IsPowerOfTwo(64);
    assert IsPowerOfTwo(128);
    assert IsPowerOfTwo(256);
    assert IsPowerOfTwo(512);
  }

  /** The packet offsets the driver visits, `for (packet = from; packet <
      NUM_SAMPLES; packet += PACKET_SIZE)`. */
  function PacketOffsets(from: nat): (r: seq<nat>)
    decreases NumSamples - from
  {
    if from >= NumSamples then [] else [from] + PacketOffsets(from + PacketSize)
  }

  lemma {:induction false} PacketOffsetsFrom(k: nat)
    requires k <= NumSamples / PacketSize
    ensures PacketOffsets(k * PacketSize) == seq(NumSamples / PacketSize - k, i => (k + i) * PacketSize)
    decreases NumSamples / PacketSize - k
  {
    if k < NumSamples / PacketSize {
      PacketOffsetsFrom(k + 1);
      assert k * PacketSize + PacketSize == (k + 1) * PacketSize;
    }
  }

  /** Index of the packet that holds sample s. */
  function PacketOf(s: nat): nat
  {
    s / PacketSize
  }

  /** The packet offsets are 0, 64, ..., 960; every sample lies in exactly one
      packet, the one at index s / PACKET_SIZE; and the loop counter never
      leaves the `u_int16_t` range. */
  lemma PacketsTileSamples()
    ensures NumSamples % PacketSize == 0
    ensures PacketOffsets(0) == seq(NumSamples / PacketSize, k => k * PacketSize)
    ensures forall s :: 0 <= s < NumSamples ==>
              PacketOf(s) < |PacketOffsets(0)| &&
              PacketOffsets(0)[PacketOf(s)] <= s < PacketOffsets(0)[PacketOf(s)] + PacketSize
    ensures forall s, k ::
              0 <= s < NumSamples && 0 <= k < |PacketOffsets(0)| &&
              PacketOffsets(0)[k] <= s < PacketOffsets(0)[k] + PacketSize
              ==> k == PacketOf(s)
    ensures forall k :: 0 <= k < |PacketOffsets(0)| ==> PacketOffsets(0)[k] + PacketSize < U16Limit
  {
    PacketOffsetsFrom(0);
    var offs := PacketOffsets(0);
    forall s, k | 0 <= s < NumSamples && 0 <= k < |offs| && offs[k] <= s < offs[k] + PacketSize
      ensures k == PacketOf(s)
    {
      assert offs[k] == k * PacketSize;
      DivModUnique(s, PacketSize, k, s - k * PacketSize);
    }
    forall s | 0 <= s < NumSamples
      ensures PacketOf(s) < |offs| && offs[PacketOf(s)] <= s < offs[PacketOf(s)] + PacketSize
    {
      assert offs[PacketOf(s)] == PacketOf(s) * PacketSize;
    }
  }
}
