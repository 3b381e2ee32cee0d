/** The training hyperparameters (`Config` in train.py) and the loop plan
    they give rise to. Loading them from a JSON file is left out. */
module TrainConfig {
  import Schedule

  /** The hyperparameter record. The learning rate and warm-up fraction are
      Python floats and are kept as reals; the loop never reads them. */
  datatype Config = Config(
    seed: int,
    batchSize: int,
    lr: real,
    nEpochs: int,
    warmup: real,
    saveSteps: int,
    totalSteps: int)

  /** The defaults of the record. */
  const Default: Config := Config(3431, 8, 0.00005, 10, 0.1, 100, 100000)

  /** The loop plan of a config over a data iterator of `batchesPerEpoch`
      batches. */
  function PlanOf(cfg: Config, batchesPerEpoch: nat): Schedule.Plan {
    Schedule.Plan(cfg.nEpochs, batchesPerEpoch, cfg.saveSteps, cfg.totalSteps)
  }

  /** Under the defaults, with a non-empty data iterator, a run completes,
      processes ten epochs or 100001 batches, whichever is fewer, and saves
      at every hundredth step and at its last. */
  lemma DefaultSchedule(batchesPerEpoch: nat, k: nat)
    requires batchesPerEpoch > 0
    ensures var p := PlanOf(Default, batchesPerEpoch);
            var n := |Schedule.BatchSteps(Schedule.Run(p).events)|;
            && Schedule.Run(p).outcome == Schedule.Returned
            && n == Schedule.Min(10 * batchesPerEpoch, 100001)
            && (Schedule.Save(k) in Schedule.Run(p).events <==> (1 <= k <= n && k % 100 == 0) || k == n)
  {
    var p := PlanOf(Default, batchesPerEpoch);
    Schedule.RunOutcome(p);
    Schedule.BatchBudget(p);
    Schedule.GlobalStepCountsBatches(p);
    Schedule.SaveIff(p, k);
  }
}
