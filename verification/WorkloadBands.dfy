/**
 Workload banding (server/src/reliability.rs:744-770): machine arithmetic on 128-bit counters against
 the exact ratios it stands for.
 */
module WorkloadBands {
  import opened Wrappers

  const MAX_U128: nat := 0xFFFF_FFFF_FFFF_FFFF_FFFF_FFFF_FFFF_FFFF
  const SECOND_NS: nat := 1_000_000_000
  const LIMITS: seq<nat> := [4096, 16_384, 65_536]

  type u128 = n: nat | n <= MAX_U128

  function CheckedMul(a: u128, b: u128): Option<u128> {
    if a * b <= MAX_U128 then Some(a * b) else None
  }

  function SaturatingMul(a: u128, b: u128): u128 {
    if a * b <= MAX_U128 then a * b else MAX_U128
  }

  function Pow2(n: nat): nat {
    if n == 0 then 1 else 2 * Pow2(n - 1)
  }

  // ---- What a band means, exactly ----

  /** The mean transfer size is at most the limit. */
  predicate Fits(bytes: nat, ops: nat, limit: nat) {
    bytes <= ops * limit
  }

  /** The least limit the mean transfer size fits, or 3 when it fits none. */
  predicate IsTransferBand(bytes: nat, ops: nat, band: nat) {
    && band <= |LIMITS|
    && (band < |LIMITS| ==> Fits(bytes, ops, LIMITS[band]))
    && forall k :: 0 <= k < band ==> !Fits(bytes, ops, LIMITS[k])
  }

  /** At least 2^b operations per second. */
  predicate AtLeast(ops: nat, duration: nat, b: nat) {
    ops * SECOND_NS >= duration * Pow2(b)
  }

  /** The greatest power-of-two band reached, at most 63, and 0 when not even the first is. */
  predicate IsRateBand(ops: nat, duration: nat, band: nat) {
    && band <= 63
    && (band > 0 ==> AtLeast(ops, duration, band))
    && forall b :: band < b <= 63 ==> !AtLeast(ops, duration, b)
  }

  /** Each meaning picks one band. */
  lemma BandsUnique(bytes: nat, ops: nat, duration: nat, a: nat, b: nat)
    ensures IsTransferBand(bytes, ops, a) && IsTransferBand(bytes, ops, b) ==> a == b
    ensures IsRateBand(ops, duration, a) && IsRateBand(ops, duration, b) ==> a == b
  {
    hide Fits, AtLeast;
  }

  // ---- No product overflows ----

  lemma {:induction false} Pow2Grows(a: nat, b: nat)
    requires a <= b
    ensures 1 <= Pow2(a) <= Pow2(b)
  {
    if a < b {
      Pow2Grows(a, b - 1);
    } else if a > 0 {
      Pow2Grows(a - 1, a - 1);
    }
  }

  lemma Pow2Of63()
    ensures Pow2(63) == 0x8000_0000_0000_0000
  {
    hide Pow2;
    Pow2Small();
    Pow2Add(8, 8);
    Pow2Add(16, 16);
    Pow2Add(32, 16);
    Pow2Add(48, 8);
    Pow2Add(56, 7);
  }

  lemma Pow2Small()
    ensures Pow2(7) == 128 && Pow2(8) == 256
  {
    assert Pow2(4) == 16;
    Pow2Add(4, 4);
  }

  lemma {:induction false} Pow2Add(a: nat, b: nat)
    ensures Pow2(a + b) == Pow2(a) * Pow2(b)
  {
    if b > 0 {
      Pow2Add(a, b - 1);
      assert Pow2(a + b) == 2 * Pow2(a + b - 1);
    }
  }

  /** Every right-hand product of the comparison fits 128 bits. */
  lemma ProductFits(duration: nat, b: nat)
    requires duration <= 15 * SECOND_NS && b <= 63
    ensures duration * Pow2(b) <= 15 * SECOND_NS * 0x8000_0000_0000_0000 < MAX_U128
  {
    Pow2Of63();
    Pow2Grows(b, 63);
    Products(duration, 15 * SECOND_NS, Pow2(b), Pow2(63));
  }

  lemma Products(a: nat, a': nat, b: nat, b': nat)
    requires a <= a' && b <= b'
    ensures a * b <= a' * b'
  {
    assert a * b <= a' * b;
    assert a' * b <= a' * b';
  }

  /** A saturated product can only select the last band, where the exact one is too. */
  lemma SaturationIsExact(ops: u128, duration: nat, b: nat)
    requires duration <= 15 * SECOND_NS && b <= 63
    ensures SaturatingMul(ops, SECOND_NS) >= duration * Pow2(b) <==> AtLeast(ops, duration, b)
  {
    ProductFits(duration, b);
  }

  lemma CheckedIsExact(bytes: u128, ops: u128, limit: u128)
    ensures (CheckedMul(ops, limit).None? || bytes <= CheckedMul(ops, limit).value) <==> Fits(bytes, ops, limit)
  {
  }

  /** Once a band is out of reach so are all higher ones. */
  lemma BeyondStays(ops: nat, duration: nat, b: nat, c: nat)
    requires b <= c && !AtLeast(ops, duration, b)
    ensures !AtLeast(ops, duration, c)
  {
    Pow2Grows(b, c);
    Products(duration, duration, Pow2(b), Pow2(c));
  }

  // ---- The computation ----

  const MIN_OPERATIONS: nat := 20

  /** An interval is classified when it is long, short and busy enough; then both bands are exact, for
      all 128-bit deltas. */
  method Bands(bytes: u128, ops: u128, time: u128, duration: u128) returns (bands: Option<(nat, nat)>)
    ensures bands.Some? <==> 1_000_000_000 <= duration <= 15_000_000_000 && ops >= 20 && time != 0
    ensures bands.Some? ==> IsTransferBand(bytes, ops, bands.value.0) && IsRateBand(ops, duration, bands.value.1)
  {
    if !(SECOND_NS <= duration <= 15 * SECOND_NS) || ops < MIN_OPERATIONS || time == 0 {
      return None;
    }
    var fits := (limit: u128) => var bound := CheckedMul(ops, limit); bound.None? || bytes <= bound.value;
    CheckedIsExact(bytes, ops, 4096);
    CheckedIsExact(bytes, ops, 16_384);
    CheckedIsExact(bytes, ops, 65_536);
    var transfer := if fits(4096) then 0 else if fits(16_384) then 1 else if fits(65_536) then 2 else 3;
    var rate := RateBand(ops, duration);
    return Some((transfer, rate));
  }

  /** The highest consecutive band from 1 on. */
  method RateBand(ops: u128, duration: u128) returns (rate: nat)
    requires SECOND_NS <= duration <= 15 * SECOND_NS
    ensures IsRateBand(ops, duration, rate)
  {
    hide AtLeast, Pow2;
    var scaled := SaturatingMul(ops, SECOND_NS);
    rate := 0;
    var band := 1;
    while band <= 63
      invariant 1 <= band <= 64 && rate == band - 1
      invariant rate > 0 ==> AtLeast(ops, duration, rate)
      decreases 64 - band
    {
      SaturationIsExact(ops, duration, band);
      ProductFits(duration, band);
      var product: u128 := duration * Pow2(band);
      if scaled < product {
        break;
      }
      rate := band;
      band := band + 1;
    }
    if band <= 63 {
      forall b | rate < b <= 63 ensures !AtLeast(ops, duration, b) {
        BeyondStays(ops, duration, band, b);
      }
    }
  }
}
