/** The work generator of src/scheduler.cc. The numbers it draws are arguments: the index of the
    file, and two draws from [0, 1) for the mixed pattern. */
module Scheduler {
  import opened Basics
  import opened RunConfig
  import SessionModel

  datatype WorkItem = WorkItem(file: nat, options: SessionModel.Options, charge: nat)

  /** A work item the scheduler may produce: its session obeys the configuration and its charge
      covers the session's byte cap and one read operation, and fits the token bucket. */
  ghost predicate Allowed(cfg: Config, item: WorkItem) {
    var o := item.options;
    && o.chunkSize == cfg.chunkSize && o.maxBytes == cfg.maxBytes && o.offset == 0
    && (o.randomOffset ==> cfg.pattern == Random || cfg.pattern == Mixed)
    && (o.vectorChunks > 0 ==> CanVector(cfg) && o.vectorChunks == Max(1, cfg.vectorChunks))
    && (cfg.pattern == Random ==> o.randomOffset)
    && (cfg.pattern == Vector ==> o.vectorChunks > 0)
    && (cfg.pattern == Mixed && o.vectorChunks == 0 ==> cfg.vectorFraction < 1.0)
    && item.charge == EstimateSessionCharge(cfg, o.vectorChunks > 0)
    && cfg.maxBytes <= item.charge <= TopCharge(cfg)
    && SessionModel.OpSize(o) <= Max(item.charge, cfg.chunkSize)
    && (cfg.rate > 0 ==> item.charge <= ComputeBucketBurst(cfg))
  }

  /** A draw from [0, 1). */
  predicate IsDraw(x: real) {
    0.0 <= x < 1.0
  }

  /** The item made from the draws. */
  function Produced(cfg: Config, file: nat, randomDraw: real, vectorDraw: real): WorkItem {
    var randomOffset := cfg.pattern == Random || (cfg.pattern == Mixed && randomDraw < 0.5);
    var useVector := cfg.pattern == Vector || (cfg.pattern == Mixed && vectorDraw < cfg.vectorFraction);
    var vectorChunks := if useVector then Max(1, cfg.vectorChunks) else 0;
    WorkItem(file, SessionModel.Options(cfg.chunkSize, 0, cfg.maxBytes, vectorChunks, randomOffset),
             EstimateSessionCharge(cfg, useVector))
  }

  /** The pattern decides how a session reads; with the mixed pattern, a draw below one half makes it
      random, and one below the vector fraction makes it a vector session. */
  lemma DrawsDecide(cfg: Config, file: nat, randomDraw: real, vectorDraw: real)
    ensures var item := Produced(cfg, file, randomDraw, vectorDraw);
            var o := item.options;
            && item.file == file && o.chunkSize == cfg.chunkSize && o.maxBytes == cfg.maxBytes && o.offset == 0
            && (cfg.pattern == Sequential ==> !o.randomOffset && o.vectorChunks == 0)
            && (cfg.pattern == Random ==> o.randomOffset && o.vectorChunks == 0)
            && (cfg.pattern == Vector ==> !o.randomOffset && o.vectorChunks == Max(1, cfg.vectorChunks))
            && (cfg.pattern == Mixed ==>
                  && (randomDraw < 0.5 <==> o.randomOffset)
                  && o.vectorChunks == if vectorDraw < cfg.vectorFraction then Max(1, cfg.vectorChunks) else 0)
            && item.charge == EstimateSessionCharge(cfg, o.vectorChunks > 0)
  {
  }

  lemma TopChargeIsLargest(cfg: Config, useVector: bool)
    requires useVector ==> CanVector(cfg)
    ensures EstimateSessionCharge(cfg, useVector) <= TopCharge(cfg)
  {
  }

  /** The items allowed are exactly those that some draws produce. */
  lemma AllowedExactly(cfg: Config, item: WorkItem)
    ensures Allowed(cfg, item) <==>
            exists r, v :: IsDraw(r) && IsDraw(v) && item == Produced(cfg, item.file, r, v)
  {
    if Allowed(cfg, item) {
      var r := if item.options.randomOffset then 0.0 else 0.5;
      var v := if item.options.vectorChunks > 0 || cfg.vectorFraction < 0.0 then 0.0 else cfg.vectorFraction;
      if cfg.pattern == Mixed {
        assert item == Produced(cfg, item.file, r, v);
      } else {
        assert item == Produced(cfg, item.file, 0.0, 0.0);
      }
    }
    forall r, v | IsDraw(r) && IsDraw(v) && item == Produced(cfg, item.file, r, v) ensures Allowed(cfg, item) {
      ProducedIsAllowed(cfg, item.file, r, v);
    }
  }

  lemma ProducedIsAllowed(cfg: Config, file: nat, randomDraw: real, vectorDraw: real)
    requires IsDraw(randomDraw) && IsDraw(vectorDraw)
    ensures Allowed(cfg, Produced(cfg, file, randomDraw, vectorDraw))
  {
    var useVector := Produced(cfg, file, randomDraw, vectorDraw).options.vectorChunks > 0;
    TopChargeIsLargest(cfg, useVector);
    ChargeCoversMaxBytes(cfg, useVector);
    if cfg.rate > 0 {
      ChargeFitsBurst(cfg, useVector);
    }
  }

  class Scheduler {
    const cfg: Config
    const files: nat
    var seqNo: nat

    constructor (cfg: Config, files: nat)
      ensures this.cfg == cfg && this.files == files && seqNo == 0
    {
      this.cfg, this.files, seqNo := cfg, files, 0;
    }

    method Next(file: nat, randomDraw: real, vectorDraw: real) returns (item: WorkItem)
      requires file < files && IsDraw(randomDraw) && IsDraw(vectorDraw)
      modifies this
      ensures seqNo == old(seqNo) + 1
      ensures item == Produced(cfg, file, randomDraw, vectorDraw) && Allowed(cfg, item)
    {
      seqNo := seqNo + 1;
      var randomOffset, useVector := false, false;
      match cfg.pattern {
        case Sequential =>
        case Random => randomOffset := true;
        case Vector => useVector := true;
        case Mixed =>
          randomOffset := randomDraw < 0.5;
          useVector := vectorDraw < cfg.vectorFraction;
      }
      var vectorChunks := if useVector then Max(1, cfg.vectorChunks) else 0;
      var options := SessionModel.Options(cfg.chunkSize, 0, cfg.maxBytes, vectorChunks, randomOffset);
      item := WorkItem(file, options, EstimateSessionCharge(cfg, useVector));
      ProducedIsAllowed(cfg, file, randomDraw, vectorDraw);
    }
  }
}
