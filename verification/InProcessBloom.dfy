/** The in-process bitmap filter that stands in for Redis Bloom while Redis is unavailable. */
module InProcessBloom {
  import opened Counting
  import opened Keys

  newtype uint32 = x: int | 0 <= x < 0x1_0000_0000

  /** 64-bit blocks allocated per shard. */
  const BLOOM_SIZE: nat := 16384

  const PROBES: nat := 4

  type Hash = string -> uint32

  /** `uint32(shards * bloomSize)`: the conversion keeps the low 32 bits. */
  function Modulus(shards: nat): (m: nat)
    ensures m <= shards * BLOOM_SIZE && m < 0x1_0000_0000
  {
    shards * BLOOM_SIZE % 0x1_0000_0000
  }

  /** The shard counts for which neither `% shards` nor the probe modulus divides by zero. */
  predicate UsableShards(shards: nat) {
    shards % 0x4_0000 != 0
  }

  lemma ModulusIsZeroIff(shards: nat)
    ensures Modulus(shards) == 0 <==> !UsableShards(shards)
    ensures UsableShards(shards) ==> Modulus(shards) >= 16384
    ensures shards < 0x4_0000 ==> Modulus(shards) == 16384 * shards
  {
  }

  /** The j-th probed bit; every operation on the two hashes wraps at 32 bits. */
  function Probe(hash: Hash, shards: nat, org: string, event: string, j: nat): (p: nat)
    requires UsableShards(shards)
    ensures p < Modulus(shards)
  {
    ModulusIsZeroIff(shards);
    var a := hash(org + ":" + event) as int;
    var c := hash(event + ":" + org) as int;
    (a + j * c % 0x1_0000_0000) % 0x1_0000_0000 % Modulus(shards)
  }

  /** The first n probed bits of a key; a key's bits are its first four. */
  function ProbesTo(hash: Hash, shards: nat, org: string, event: string, n: nat): (ps: set<nat>)
    requires UsableShards(shards)
    ensures forall p <- ps :: p < Modulus(shards)
  {
    set j | 0 <= j < n :: Probe(hash, shards, org, event, j)
  }

  function Probes(hash: Hash, shards: nat, org: string, event: string): (ps: set<nat>)
    requires UsableShards(shards)
    ensures forall p <- ps :: p < Modulus(shards)
  {
    ProbesTo(hash, shards, org, event, PROBES)
  }

  // ---- what the probes depend on ----

  /** h, h + c, h + c + c, ...: every addition wraps at 32 bits. */
  function RunningSum(h: uint32, c: uint32, j: nat): nat {
    if j == 0 then h as nat else
      var sum := RunningSum(h, c, j - 1) + c as nat;
      if sum < 0x1_0000_0000 then sum else sum - 0x1_0000_0000
  }

  lemma WrapThenAdd(x: nat, y: nat)
    ensures (x % 0x1_0000_0000 + y) % 0x1_0000_0000 == (x + y) % 0x1_0000_0000
  {
    var q := x / 0x1_0000_0000;
    assert x == q * 0x1_0000_0000 + x % 0x1_0000_0000;
  }

  /** Adding with one conditional subtraction is adding modulo 2^32. */
  lemma AddWraps(before: nat, step: nat)
    requires step < 0x1_0000_0000
    ensures var sum := before % 0x1_0000_0000 + step;
      (if sum < 0x1_0000_0000 then sum else sum - 0x1_0000_0000) == (before + step) % 0x1_0000_0000
  {
    WrapThenAdd(before, step);
  }

  function Times(j: nat, c: nat): nat {
    j * c
  }

  lemma OneMoreTimes(j: nat, c: nat)
    requires j > 0
    ensures Times(j, c) == Times(j - 1, c) + c
  {
  }

  lemma {:induction false} RunningSumIsTimes(h: uint32, c: uint32, j: nat)
    ensures RunningSum(h, c, j) == (h as nat + Times(j, c as nat)) % 0x1_0000_0000
  {
    if j == 0 {
      assert Times(0, c as nat) == 0;
    } else {
      RunningSumIsTimes(h, c, j - 1);
      var product := Times(j - 1, c as nat);
      OneMoreTimes(j, c as nat);
      AddWraps(h as nat + product, c as nat);
    }
  }

  lemma RunningSumWraps(h: uint32, c: uint32, j: nat)
    ensures RunningSum(h, c, j) == (h as nat + j * (c as nat)) % 0x1_0000_0000
  {
    RunningSumIsTimes(h, c, j);
  }

  /** Probe j is the j-th running sum of the hashes of `org:event` and `event:org`, reduced by the modulus. */
  lemma ProbesAreRunningSums(hash: Hash, shards: nat, org: string, event: string, j: nat)
    requires UsableShards(shards)
    ensures Modulus(shards) > 0
    ensures Probe(hash, shards, org, event, j)
         == RunningSum(hash(PairKey(org, event)), hash(PairKey(event, org)), j) % Modulus(shards)
  {
    ModulusIsZeroIff(shards);
    var a, c := hash(org + ":" + event), hash(event + ":" + org);
    assert PairKey(org, event) == org + ":" + event && PairKey(event, org) == event + ":" + org;
    RunningSumWraps(a, c, j);
    var product := j * (c as nat);
    WrapThenAdd(product, a as nat);
    assert Probe(hash, shards, org, event, j) == (a as nat + product % 0x1_0000_0000) % 0x1_0000_0000 % Modulus(shards);
  }

  lemma AtMostFour(a: nat, b: nat, c: nat, d: nat)
    ensures |{a, b} + {c, d}| <= 4
  {
    assert |{a, b}| <= 2 && |{c, d}| <= 2;
  }

  lemma TwoProbes(hash: Hash, shards: nat, org: string, event: string)
    requires UsableShards(shards)
    ensures ProbesTo(hash, shards, org, event, 2)
         == {Probe(hash, shards, org, event, 0), Probe(hash, shards, org, event, 1)}
  {
    assert ProbesTo(hash, shards, org, event, 0) == {};
    ProbesToStep(hash, shards, org, event, 0);
    ProbesToStep(hash, shards, org, event, 1);
  }

  /** The four probed bits, one by one. */
  lemma FourProbes(hash: Hash, shards: nat, org: string, event: string)
    requires UsableShards(shards)
    ensures Probes(hash, shards, org, event)
         == {Probe(hash, shards, org, event, 0), Probe(hash, shards, org, event, 1)}
          + {Probe(hash, shards, org, event, 2), Probe(hash, shards, org, event, 3)}
    ensures |Probes(hash, shards, org, event)| <= 4
  {
    TwoProbes(hash, shards, org, event);
    ProbesToStep(hash, shards, org, event, 2);
    ProbesToStep(hash, shards, org, event, 3);
    AtMostFour(Probe(hash, shards, org, event, 0), Probe(hash, shards, org, event, 1),
               Probe(hash, shards, org, event, 2), Probe(hash, shards, org, event, 3));
  }

  lemma SmallSum(h: uint32, c: uint32, j: nat)
    requires j < 4 && h <= 4 && c <= 1
    ensures RunningSum(h, c, j) == h as nat + if c == 0 then 0 else j
  {
    assert j == 0 || j == 1 || j == 2 || j == 3;
  }

  lemma SmallProbe(hash: Hash, shards: nat, org: string, event: string, j: nat)
    requires UsableShards(shards) && j < 4 && hash(PairKey(org, event)) <= 1 && hash(PairKey(event, org)) <= 1
    ensures Probe(hash, shards, org, event, j)
         == hash(PairKey(org, event)) as nat + if hash(PairKey(event, org)) == 0 then 0 else j
  {
    ModulusIsZeroIff(shards);
    ProbesAreRunningSums(hash, shards, org, event, j);
    var a, c := hash(PairKey(org, event)), hash(PairKey(event, org));
    SmallSum(a, c, j);
    SmallMod(RunningSum(a, c, j), Modulus(shards));
  }

  lemma SmallMod(x: nat, m: nat)
    requires x < m
    ensures x % m == x
  {
  }

  /** Never more than four bits, and for some hash four different ones, whatever the key. */
  lemma AtMostFourProbes(hash: Hash, shards: nat, org: string, event: string)
    requires UsableShards(shards)
    ensures |Probes(hash, shards, org, event)| <= 4
    ensures |Probes(_ => 1, shards, org, event)| == 4
  {
    var one: Hash := _ => 1;
    FourProbes(hash, shards, org, event);
    FourProbes(one, shards, org, event);
    SmallProbe(one, shards, org, event, 0);
    SmallProbe(one, shards, org, event, 1);
    SmallProbe(one, shards, org, event, 2);
    SmallProbe(one, shards, org, event, 3);
    assert Probes(one, shards, org, event) == {1, 2, 3, 4};
  }

  /** The hash that tells one key from all others. */
  function Singling(org: string, event: string): Hash {
    s => if s == PairKey(org, event) then 1 else 0
  }

  /** Under it no other key, of this or another org, is covered by this one. */
  lemma KeysCanBeToldApart(shards: nat, o: string, x: string, o': string, y: string)
    requires UsableShards(shards) && PairKey(o, x) != PairKey(o', y)
    ensures !(Probes(Singling(o, x), shards, o', y) <= Probes(Singling(o, x), shards, o, x))
  {
    var hash := Singling(o, x);
    FourProbes(hash, shards, o, x);
    FourProbes(hash, shards, o', y);
    SmallProbe(hash, shards, o', y, 0);
    SmallProbe(hash, shards, o, x, 0);
    SmallProbe(hash, shards, o, x, 1);
    SmallProbe(hash, shards, o, x, 2);
    SmallProbe(hash, shards, o, x, 3);
    assert 0 in Probes(hash, shards, o', y) && 0 !in Probes(hash, shards, o, x);
  }

  lemma ProbesToStep(hash: Hash, shards: nat, org: string, event: string, n: nat)
    requires UsableShards(shards)
    ensures ProbesTo(hash, shards, org, event, n + 1)
         == ProbesTo(hash, shards, org, event, n) + {Probe(hash, shards, org, event, n)}
  {
  }

  // ---- one 64-bit block ----

  newtype uint64 = x: int | 0 <= x < 0x1_0000_0000_0000_0000

  /** `w & (1 << k) != 0`: bit k, counted from the low end. */
  predicate Bit(w: nat, k: nat) {
    if k == 0 then w % 2 == 1 else Bit(w / 2, k - 1)
  }

  /** `w | (1 << k)`. */
  function OrBit(w: nat, k: nat): nat {
    if k == 0 then w / 2 * 2 + 1 else OrBit(w / 2, k - 1) * 2 + w % 2
  }

  lemma {:induction false} OrBitSetsOneBit(w: nat, i: nat, j: nat)
    ensures Bit(OrBit(w, i), j) <==> i == j || Bit(w, j)
    decreases i
  {
    if i == 0 {
      assert OrBit(w, i) / 2 == w / 2;
    } else {
      var rest := OrBit(w / 2, i - 1);
      assert OrBit(w, i) / 2 == rest && OrBit(w, i) % 2 == w % 2;
      if j > 0 {
        OrBitSetsOneBit(w / 2, i - 1, j - 1);
      }
    }
  }

  lemma {:induction false} OrBitStaysInWord(w: nat, k: nat, n: nat)
    requires k < n && w < Pow2(n)
    ensures OrBit(w, k) < Pow2(n)
    decreases n
  {
    assert Pow2(n) == 2 * Pow2(n - 1) && w / 2 < Pow2(n - 1);
    if k > 0 {
      OrBitStaysInWord(w / 2, k - 1, n - 1);
    }
  }

  lemma WordSize()
    ensures Pow2(64) == 0x1_0000_0000_0000_0000
  {
    assert Pow2(8) == 0x100;
    assert Pow2(16) == 0x10000;
    assert Pow2(24) == 0x1000000;
    assert Pow2(32) == 0x100000000;
    assert Pow2(40) == 0x10000000000;
    assert Pow2(48) == 0x1000000000000;
    assert Pow2(56) == 0x100000000000000;
  }

  predicate HasBit(w: uint64, k: nat)
    requires k < 64
  {
    Bit(w as nat, k)
  }

  function SetBit(w: uint64, k: nat): uint64
    requires k < 64
  {
    WordSize();
    OrBitStaysInWord(w as nat, k, 64);
    OrBit(w as nat, k) as uint64
  }

  // ---- the bitmap ----

  /** Bit p of the bitmap. */
  predicate BitAt(words: seq<uint64>, p: nat)
    requires p < 64 * |words|
  {
    HasBit(words[p / 64], p % 64)
  }

  /** The set of bits that are on. */
  function BitSet(words: seq<uint64>): set<nat> {
    set p: nat | 0 <= p < 64 * |words| && BitAt(words, p)
  }

  /** Only block p / 64 changed, and it gained bit p % 64. */
  predicate GainsBit(words: seq<uint64>, words': seq<uint64>, p: nat) {
    && p < 64 * |words|
    && |words'| == |words|
    && words'[p / 64] == SetBit(words[p / 64], p % 64)
    && forall i :: 0 <= i < |words| && i != p / 64 ==> words'[i] == words[i]
  }

  lemma GainsBitInBitmap(words: seq<uint64>, words': seq<uint64>, p: nat, q: nat)
    requires GainsBit(words, words', p) && q < 64 * |words|
    ensures BitAt(words', q) <==> q == p || BitAt(words, q)
  {
    if q / 64 == p / 64 {
      OrBitSetsOneBit(words[p / 64] as nat, p % 64, q % 64);
    }
  }

  lemma GainsBitInSet(words: seq<uint64>, words': seq<uint64>, p: nat)
    requires GainsBit(words, words', p)
    ensures BitSet(words') == BitSet(words) + {p}
  {
    forall q: nat | q < 64 * |words|
      ensures BitAt(words', q) <==> q == p || BitAt(words, q)
    {
      GainsBitInBitmap(words, words', p, q);
    }
  }

  lemma {:induction false} ZeroHasNoBits(k: nat)
    ensures !Bit(0, k)
  {
    if k > 0 {
      ZeroHasNoBits(k - 1);
    }
  }

  lemma ClearBitmapIsEmpty(words: seq<uint64>)
    requires forall i :: 0 <= i < |words| ==> words[i] == 0
    ensures BitSet(words) == {}
  {
    forall p: nat | p < 64 * |words|
      ensures !BitAt(words, p)
    {
      ZeroHasNoBits(p % 64);
    }
  }

  // ---- whole runs of the filter ----

  datatype FilterOp = AddKey(org: string, event: string) | ExistsAndAddKey(org: string, event: string)

  /** The bits on after the operations, starting from a clear bitmap. */
  function BitsAfter(hash: Hash, shards: nat, ops: seq<FilterOp>): set<nat>
    requires UsableShards(shards)
  {
    if ops == [] then {} else
      var last := ops[|ops| - 1];
      BitsAfter(hash, shards, ops[..|ops| - 1]) + Probes(hash, shards, last.org, last.event)
  }

  /** The bitmap is exactly the union of the probe sets of the keys inserted so far. */
  lemma {:induction false} BitmapIsUnionOfProbes(hash: Hash, shards: nat, ops: seq<FilterOp>, p: nat)
    requires UsableShards(shards)
    ensures p in BitsAfter(hash, shards, ops)
       <==> exists i :: 0 <= i < |ops| && p in Probes(hash, shards, ops[i].org, ops[i].event)
  {
    if ops != [] {
      var front := ops[..|ops| - 1];
      BitmapIsUnionOfProbes(hash, shards, front, p);
      assert forall i :: 0 <= i < |front| ==> front[i] == ops[i];
    }
  }

  function KeysOf(ops: seq<FilterOp>): set<(string, string)> {
    set i | 0 <= i < |ops| :: (ops[i].org, ops[i].event)
  }

  lemma MoreKeysMoreBits(hash: Hash, shards: nat, ops: seq<FilterOp>, ops': seq<FilterOp>)
    requires UsableShards(shards)
    requires KeysOf(ops) <= KeysOf(ops')
    ensures BitsAfter(hash, shards, ops) <= BitsAfter(hash, shards, ops')
  {
    forall p | p in BitsAfter(hash, shards, ops)
      ensures p in BitsAfter(hash, shards, ops')
    {
      BitmapIsUnionOfProbes(hash, shards, ops, p);
      var i :| 0 <= i < |ops| && p in Probes(hash, shards, ops[i].org, ops[i].event);
      assert (ops[i].org, ops[i].event) in KeysOf(ops');
      var k :| 0 <= k < |ops'| && (ops'[k].org, ops'[k].event) == (ops[i].org, ops[i].event);
      BitmapIsUnionOfProbes(hash, shards, ops', p);
    }
  }

  /** Only the set of inserted keys matters: not their order, their repetition or the kind of call. */
  lemma OrderAndRepetitionIrrelevant(hash: Hash, shards: nat, ops: seq<FilterOp>, ops': seq<FilterOp>)
    requires UsableShards(shards)
    requires KeysOf(ops) == KeysOf(ops')
    ensures BitsAfter(hash, shards, ops) == BitsAfter(hash, shards, ops')
  {
    MoreKeysMoreBits(hash, shards, ops, ops');
    MoreKeysMoreBits(hash, shards, ops', ops);
  }

  /** No false negatives: `existsAndAdd` answers true for every key inserted before. */
  lemma {:induction false} InsertedKeyIsPresent(hash: Hash, shards: nat, ops: seq<FilterOp>, i: nat)
    requires UsableShards(shards) && i < |ops|
    ensures Probes(hash, shards, ops[i].org, ops[i].event) <= BitsAfter(hash, shards, ops)
  {
    forall p | p in Probes(hash, shards, ops[i].org, ops[i].event)
      ensures p in BitsAfter(hash, shards, ops)
    {
      BitmapIsUnionOfProbes(hash, shards, ops, p);
    }
  }

  /**
   * The probe modulus counts blocks where it indexes bits, so only the first 256 of each
   * shard's 16384 blocks are ever used, and every probe is inside the allocated bitmap.
   */
  lemma {:induction false} OnlyFirstBlocksAreUsed(hash: Hash, shards: nat, ops: seq<FilterOp>, p: nat)
    requires UsableShards(shards)
    requires p in BitsAfter(hash, shards, ops)
    ensures p / 64 < shards * 256 && p / 64 < shards * BLOOM_SIZE
  {
    BitmapIsUnionOfProbes(hash, shards, ops, p);
  }

  class Filter {
    const shards: nat
    const hash: Hash
    const bits: array<uint64>
    ghost var history: seq<FilterOp>  // the calls made so far

    ghost predicate Valid()
      reads this, bits
    {
      && Allocated()
      && Contents() == BitsAfter(hash, shards, history)
    }

    ghost predicate Allocated() {
      UsableShards(shards) && bits.Length == shards * BLOOM_SIZE
    }

    ghost function Contents(): set<nat>
      reads bits
    {
      BitSet(bits[..])
    }

    constructor (shards: nat, hash: Hash)
      requires UsableShards(shards)
      ensures Valid() && fresh(bits)
      ensures this.shards == shards && this.hash == hash
      ensures history == [] && Contents() == {}
    {
      this.shards := shards;
      this.hash := hash;
      this.bits := new uint64[shards * BLOOM_SIZE](_ => 0);
      this.history := [];
      new;
      ClearBitmapIsEmpty(bits[..]);
    }

    function Test(h: nat): (on: bool)
      requires Allocated() && h < 64 * bits.Length
      reads bits
      ensures on <==> h in Contents()
    {
      assert BitAt(bits[..], h) <==> h in Contents();
      HasBit(bits[h / 64], h % 64)
    }

    method Set(h: nat)
      requires Allocated() && h < 64 * bits.Length
      modifies bits
      ensures Contents() == old(Contents()) + {h}
    {
      ghost var words := bits[..];
      var blockIdx, bitIdx := h / 64, h % 64;
      bits[blockIdx] := SetBit(bits[blockIdx], bitIdx);
      GainsBitInSet(words, bits[..], h);
    }

    /** Adds the key; true iff all its bits were on before the call, coinciding probes included. */
    method ExistsAndAdd(org: string, event: string) returns (wasPresent: bool)
      requires Valid()
      modifies this`history, bits
      ensures Valid() && history == old(history) + [ExistsAndAddKey(org, event)]
      ensures wasPresent <==> Probes(hash, shards, org, event) <= old(Contents())
      ensures Contents() == old(Contents()) + Probes(hash, shards, org, event)
    {
      wasPresent := true;
      for j := 0 to PROBES
        invariant history == old(history)
        invariant Contents() == old(Contents()) + ProbesTo(hash, shards, org, event, j)
        invariant wasPresent <==> ProbesTo(hash, shards, org, event, j) <= old(Contents())
      {
        var h := Probe(hash, shards, org, event, j);
        ProbesToStep(hash, shards, org, event, j);
        if !Test(h) {
          wasPresent := false;
          Set(h);
        }
      }
      history := history + [ExistsAndAddKey(org, event)];
    }

    method Add(org: string, event: string)
      requires Valid()
      modifies this`history, bits
      ensures Valid() && history == old(history) + [AddKey(org, event)]
      ensures Contents() == old(Contents()) + Probes(hash, shards, org, event)
    {
      for j := 0 to PROBES
        invariant history == old(history)
        invariant Contents() == old(Contents()) + ProbesTo(hash, shards, org, event, j)
      {
        var h := Probe(hash, shards, org, event, j);
        ProbesToStep(hash, shards, org, event, j);
        Set(h);
      }
      history := history + [AddKey(org, event)];
    }
  }
}
