/** Session sizing and token charges of src/run_config.cc, with the policy constants of
    run_config.hh. Sizes are bytes, rates bytes per second. */
module RunConfig {
  import opened Basics

  const AMORTIZE_SECONDS: nat := 8
  const FLOOR_CHUNKS: nat := 4
  const HARD_CAP: nat := 32_000_000
  const FULL_CHUNKS: nat := 16
  const HEADROOM_SECONDS: nat := 2
  const U64: nat := 0x1_0000_0000_0000_0000

  datatype Pattern = Sequential | Random | Vector | Mixed

  datatype Config = Config(rate: nat, maxInflight: nat, pattern: Pattern, chunkSize: nat, vectorChunks: nat,
                           vectorFraction: real, maxBytes: nat, maxBytesAuto: bool)

  /** The widths of the program's fields; a rate of 2^63 or more is not representable once
      doubled. */
  predicate Typed(cfg: Config) {
    && cfg.rate < 0x8000_0000_0000_0000 && cfg.maxInflight < 0x1_0000_0000
    && cfg.chunkSize < 0x1_0000_0000 && cfg.vectorChunks < 0x1_0000 && cfg.maxBytes < U64
  }

  datatype ConfigError = AutoNeedsRate | UncappedNeedsMaxBytes
  datatype Resolved<T> = Ok(value: T) | Rejected(error: ConfigError)

  function RoundUp(x: nat, chunk: nat): nat
    requires chunk > 0
  {
    (x + chunk - 1) / chunk * chunk
  }

  function RoundDown(x: nat, chunk: nat): nat
    requires chunk > 0
  {
    x / chunk * chunk
  }

  function SizeCeiling(rate: nat): nat {
    Min(rate * HEADROOM_SECONDS, HARD_CAP)
  }

  /** The amortised share of a session, kept between floor and ceiling. */
  function Share(rate: nat, w: nat, chunk: nat): nat
    requires w > 0
  {
    Min(Max(rate * AMORTIZE_SECONDS / w, chunk * FLOOR_CHUNKS), SizeCeiling(rate))
  }

  function AutoSize(rate: nat, maxInflight: nat, chunkSize: nat): nat {
    var w, chunk := Max(maxInflight, 1), Max(chunkSize, 1);
    var aligned := RoundUp(Share(rate, w, chunk), chunk);
    Max(if aligned > SizeCeiling(rate) then RoundDown(SizeCeiling(rate), chunk) else aligned, chunk)
  }

  function ComputeAutoMaxBytes(cfg: Config): Resolved<nat> {
    if cfg.rate == 0 then Rejected(AutoNeedsRate) else Ok(AutoSize(cfg.rate, cfg.maxInflight, cfg.chunkSize))
  }

  function EstimateSessionCharge(cfg: Config, useVector: bool): nat {
    var charge := if cfg.maxBytes > 0 then cfg.maxBytes else cfg.chunkSize * FULL_CHUNKS;
    if useVector then Max(charge, cfg.chunkSize * Max(1, cfg.vectorChunks)) else charge
  }

  predicate MayVector(cfg: Config) {
    cfg.pattern == Vector || cfg.pattern == Mixed
  }

  /** The scheduler may really choose vector reads: a mixed pattern draws from [0, 1) and compares
      with the fraction. */
  predicate CanVector(cfg: Config) {
    cfg.pattern == Vector || (cfg.pattern == Mixed && cfg.vectorFraction > 0.0)
  }

  /** The largest charge of an item the scheduler can produce. */
  function TopCharge(cfg: Config): nat {
    EstimateSessionCharge(cfg, CanVector(cfg))
  }

  /** The pipeline product is computed in 64 bits. */
  function ComputeBucketBurst(cfg: Config): nat {
    if cfg.rate == 0 then 0 else
    var charge := EstimateSessionCharge(cfg, MayVector(cfg));
    Max(Max(charge * Max(cfg.maxInflight, 1) % U64, cfg.rate * HEADROOM_SECONDS), charge)
  }

  /** ResolveRunConfig: fill in max_bytes, or reject the configuration. */
  method ResolveRunConfig(cfg: Config) returns (r: Resolved<Config>)
    ensures r.Rejected? <==> cfg.rate == 0 && (cfg.maxBytesAuto || cfg.maxBytes == 0)
    ensures r.Ok? ==> r.value == if cfg.maxBytesAuto then cfg.(maxBytes := r.value.maxBytes) else cfg
    ensures r.Ok? && cfg.maxBytesAuto ==> r.value.maxBytes == AutoSize(cfg.rate, cfg.maxInflight, cfg.chunkSize)
    ensures r.Ok? && (cfg.maxBytesAuto || r.value.rate == 0) ==> r.value.maxBytes > 0
  {
    if cfg.rate == 0 {
      if cfg.maxBytesAuto || cfg.maxBytes == 0 {
        return Rejected(UncappedNeedsMaxBytes);
      }
      return Ok(cfg);
    }
    var resolved := cfg;
    if resolved.maxBytesAuto {
      var size := ComputeAutoMaxBytes(resolved);
      match size {
        case Ok(bytes) => resolved := resolved.(maxBytes := bytes);
        case Rejected(e) => return Rejected(e);
      }
    }
    return Ok(resolved);
  }

  // ---- automatic session size --------------------------------------------------------------

  lemma DivideMonotone(a: nat, b: nat, d: nat)
    requires d > 0 && a <= b
    ensures a / d <= b / d
  {
    var p, q := a / d, b / d;
    assert d * p <= a && b < d * q + d;
    if p > q {
      ProductMonotone(d, q + 1, p);
    }
  }

  lemma DivideByLess(a: nat, d: nat, e: nat)
    requires 0 < d <= e
    ensures a / e <= a / d
  {
    var p, q := a / d, a / e;
    assert e * q <= a && a < d * p + d;
    if q > p {
      ProductMonotone(q, d, e);
      ProductMonotone(d, p + 1, q);
    }
  }

  /** The largest multiple of chunk up to x, and the smallest from x on. */
  lemma Rounding(x: nat, chunk: nat)
    requires chunk > 0
    ensures RoundDown(x, chunk) <= x < RoundDown(x, chunk) + chunk
    ensures x <= RoundUp(x, chunk) < x + chunk
    ensures RoundDown(x, chunk) % chunk == 0 && RoundUp(x, chunk) % chunk == 0
  {
    var q := (x + chunk - 1) / chunk;
    assert x + chunk - 1 < q * chunk + chunk;
    QuotientOf(x / chunk, 0, chunk);
    QuotientOf(q, 0, chunk);
  }

  lemma QuotientOf(k: nat, r: nat, chunk: nat)
    requires r < chunk
    ensures (k * chunk + r) / chunk == k && (k * chunk + r) % chunk == r
  {
    var x := k * chunk + r;
    var q, s := x / chunk, x % chunk;
    assert x == q * chunk + s;
    if q < k {
      ProductMonotone(chunk, q + 1, k);
    } else if q > k {
      ProductMonotone(chunk, k + 1, q);
    }
  }

  /** Any multiple of chunk up to x is at most RoundDown(x). */
  lemma RoundDownIsGreatest(x: nat, k: nat, chunk: nat)
    requires chunk > 0 && k * chunk <= x
    ensures k * chunk <= RoundDown(x, chunk)
  {
    QuotientOf(k, 0, chunk);
    DivideMonotone(k * chunk, x, chunk);
    ProductMonotone(chunk, k, x / chunk);
  }

  lemma RoundingMonotone(x: nat, y: nat, chunk: nat)
    requires chunk > 0 && x <= y
    ensures RoundUp(x, chunk) <= RoundUp(y, chunk) && RoundDown(x, chunk) <= RoundDown(y, chunk)
  {
    DivideMonotone(x, y, chunk);
    DivideMonotone(x + chunk - 1, y + chunk - 1, chunk);
    ProductMonotone(chunk, x / chunk, y / chunk);
    ProductMonotone(chunk, (x + chunk - 1) / chunk, (y + chunk - 1) / chunk);
  }

  /** The program's rounding (up, or down when that breaches the ceiling) is the smaller of the
      share rounded up and the ceiling rounded down. */
  lemma AutoSizeIsMin(rate: nat, maxInflight: nat, chunkSize: nat)
    ensures var w, chunk := Max(maxInflight, 1), Max(chunkSize, 1);
            AutoSize(rate, maxInflight, chunkSize) ==
            Max(Min(RoundUp(Share(rate, w, chunk), chunk), RoundDown(SizeCeiling(rate), chunk)), chunk)
  {
    var w, chunk := Max(maxInflight, 1), Max(chunkSize, 1);
    var share, ceiling := Share(rate, w, chunk), SizeCeiling(rate);
    Rounding(ceiling, chunk);
    if RoundUp(share, chunk) <= ceiling {
      RoundDownIsGreatest(ceiling, (share + chunk - 1) / chunk, chunk);
    }
  }

  /** The automatic size is a positive multiple of the chunk, within the ceiling (or one chunk),
      and at least four chunks whenever the ceiling allows that. */
  lemma AutoSizeInBounds(rate: nat, maxInflight: nat, chunkSize: nat)
    ensures var size, chunk := AutoSize(rate, maxInflight, chunkSize), Max(chunkSize, 1);
            && 0 < size && size % chunk == 0
            && size <= Max(chunk, SizeCeiling(rate))
            && (FLOOR_CHUNKS * chunk <= SizeCeiling(rate) ==> FLOOR_CHUNKS * chunk <= size)
  {
    var w, chunk := Max(maxInflight, 1), Max(chunkSize, 1);
    AutoSizeIsMin(rate, maxInflight, chunkSize);
    Rounding(Share(rate, w, chunk), chunk);
    Rounding(SizeCeiling(rate), chunk);
    QuotientOf(1, 0, chunk);
    if FLOOR_CHUNKS * chunk <= SizeCeiling(rate) {
      RoundDownIsGreatest(SizeCeiling(rate), FLOOR_CHUNKS, chunk);
    }
  }

  /** A higher rate never makes sessions smaller, and more sessions in flight never bigger. */
  lemma AutoSizeMonotone(rate: nat, rate': nat, w: nat, w': nat, chunkSize: nat)
    requires rate <= rate' && w' <= w
    ensures AutoSize(rate, w, chunkSize) <= AutoSize(rate', w', chunkSize)
  {
    var chunk, n, n' := Max(chunkSize, 1), Max(w, 1), Max(w', 1);
    AutoSizeIsMin(rate, w, chunkSize);
    AutoSizeIsMin(rate', w', chunkSize);
    DivideMonotone(rate * AMORTIZE_SECONDS, rate' * AMORTIZE_SECONDS, n);
    DivideByLess(rate' * AMORTIZE_SECONDS, n', n);
    RoundingMonotone(Share(rate, n, chunk), Share(rate', n', chunk), chunk);
    RoundingMonotone(SizeCeiling(rate), SizeCeiling(rate'), chunk);
  }

  // ---- charges and burst -------------------------------------------------------------------

  /** Every charge fits the bucket, whatever the 64-bit product does. */
  lemma ChargeFitsBurst(cfg: Config, useVector: bool)
    requires cfg.rate > 0 && (useVector ==> MayVector(cfg))
    ensures EstimateSessionCharge(cfg, useVector) <= ComputeBucketBurst(cfg)
  {
  }

  /** A session's charge covers its byte cap. */
  lemma ChargeCoversMaxBytes(cfg: Config, useVector: bool)
    ensures cfg.maxBytes <= EstimateSessionCharge(cfg, useVector)
  {
  }

  lemma ChargeIsTyped(cfg: Config)
    requires Typed(cfg)
    ensures EstimateSessionCharge(cfg, MayVector(cfg)) < U64
  {
    ProductMonotone(cfg.chunkSize, Max(1, cfg.vectorChunks), 0x1_0000);
  }

  /** The bucket holds the charges of a whole pipeline of sessions exactly when their product
      fits in 64 bits. */
  lemma BurstCoversPipeline(cfg: Config)
    requires Typed(cfg) && cfg.rate > 0
    ensures var pipeline := EstimateSessionCharge(cfg, MayVector(cfg)) * Max(cfg.maxInflight, 1);
            pipeline <= ComputeBucketBurst(cfg) <==> pipeline < U64
  {
    ChargeIsTyped(cfg);
  }

  // ---- the policy in plain words -----------------------------------------------------------

  /** A session is charged its cap, or sixteen chunks if it has none; a vector session at least one
      read of its chunks. */
  lemma ChargeInPlainWords(cfg: Config)
    ensures var plain := if cfg.maxBytes > 0 then cfg.maxBytes else 16 * cfg.chunkSize;
            && EstimateSessionCharge(cfg, false) == plain
            && EstimateSessionCharge(cfg, true) == Max(plain, cfg.chunkSize * Max(1, cfg.vectorChunks))
  {
  }

  /** The burst is the largest of two seconds of the rate, one charge, and a pipeline of charges, as
      long as that fits in 64 bits. */
  lemma BurstInPlainWords(cfg: Config)
    requires cfg.rate > 0
    ensures var charge := EstimateSessionCharge(cfg, cfg.pattern == Vector || cfg.pattern == Mixed);
            var pipeline := charge * Max(1, cfg.maxInflight);
            var burst := ComputeBucketBurst(cfg);
            && burst >= 2 * cfg.rate && burst >= charge && (pipeline < 0x1_0000_0000_0000_0000 ==> burst >= pipeline)
            && (pipeline < 0x1_0000_0000_0000_0000 ==> burst == 2 * cfg.rate || burst == charge || burst == pipeline)
  {
    hide EstimateSessionCharge;
  }

  lemma RoundedShare(share: nat, ceiling: nat, chunk: nat)
    requires chunk > 0 && share <= ceiling
    ensures var size := Max(Min(RoundUp(share, chunk), RoundDown(ceiling, chunk)), chunk);
            size < share + chunk || size == chunk
    ensures var size := Max(Min(RoundUp(share, chunk), RoundDown(ceiling, chunk)), chunk);
            share < size + chunk && (share == ceiling && chunk <= ceiling ==> size <= ceiling)
    ensures share % chunk == 0 && chunk <= share ==>
              Max(Min(RoundUp(share, chunk), RoundDown(ceiling, chunk)), chunk) == share
  {
    Rounding(share, chunk);
    Rounding(ceiling, chunk);
    if chunk <= ceiling {
      RoundDownIsGreatest(ceiling, 1, chunk);
    }
    if share % chunk == 0 && chunk <= share {
      var k := share / chunk;
      assert share == k * chunk;
      RoundDownIsGreatest(ceiling, k, chunk);
      QuotientOf(k, chunk - 1, chunk);
    }
  }

  /** The automatic size is less than a chunk away from eight seconds of one session's part of the
      rate, where that lies between four chunks and the ceiling (two seconds of the rate, at most
      32 MB); below it is four chunks; above, the ceiling less a part of a chunk. */
  lemma AutoSizeInPlainWords(rate: nat, maxInflight: nat, chunkSize: nat)
    requires chunkSize >= 1
    ensures var size := AutoSize(rate, maxInflight, chunkSize);
            var share, ceiling := rate * 8 / Max(maxInflight, 1), Min(2 * rate, 32_000_000);
            && (4 * chunkSize <= share <= ceiling ==> share - chunkSize < size < share + chunkSize)
            && (share <= 4 * chunkSize <= ceiling ==> size == 4 * chunkSize)
            && (share >= ceiling >= 4 * chunkSize ==> ceiling - chunkSize < size <= ceiling)
  {
    AutoSizeIsMin(rate, maxInflight, chunkSize);
    var w, ceiling := Max(maxInflight, 1), SizeCeiling(rate);
    RoundedShare(Share(rate, w, chunkSize), ceiling, chunkSize);
    QuotientOf(4, 0, chunkSize);
  }

}
