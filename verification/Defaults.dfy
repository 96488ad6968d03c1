/** The default exit configuration (src/autobuy/exit_engine.rs, src/autobuy/manager.rs) and the order conditions it meets. */
module Defaults {

  import opened ExitEngine
  import opened FloorProps
  import opened PartialProps
  import opened RowRuns

  const WEAK := TpProfile(30.0, 40.0, 50.0, 40.0, 100.0, 15.0, 150.0, 10.0, 200.0, 10.0, 14.0, 50.0, 15.0, 50.0, 5.0)
  const NEUTRAL := TpProfile(30.0, 35.0, 50.0, 25.0, 100.0, 12.0, 150.0, 10.0, 200.0, 10.0, 20.0, 60.0, 25.0, 50.0, 5.0)
  const STRONG := TpProfile(30.0, 30.0, 50.0, 15.0, 100.0, 10.0, 150.0, 10.0, 200.0, 10.0, 26.0, 60.0, 35.0, 50.0, 5.0)
  const RUNNER := TpProfile(50.0, 10.0, 80.0, 10.0, 150.0, 15.0, 250.0, 12.0, 350.0, 10.0, 32.0, 55.0, 30.0, 45.0, 8.0)

  /** Default profiles, default take-profits without the v4 engine, default initial floor. */
  predicate UsesDefaults(cfg: Config) {
    && cfg.v4.weak == WEAK && cfg.v4.neutral == NEUTRAL && cfg.v4.strong == STRONG && cfg.v4.runner == RUNNER
    && cfg.profitFloor == -40.0
    && (cfg.plain.tp1Pct, cfg.plain.tp2Pct, cfg.plain.tp3Pct, cfg.plain.tp4Pct, cfg.plain.tp5Pct) == (30.0, 50.0, 100.0, 150.0, 200.0)
    && (cfg.plain.tp1Sell, cfg.plain.tp2Sell, cfg.plain.tp3Sell, cfg.plain.tp4Sell, cfg.plain.tp5Sell) == (30.0, 15.0, 10.0, 10.0, 10.0)
  }

  /** The defaults meet every condition the run results rest on, with the v4 engine on or off. */
  lemma DefaultsMeetConditions(cfg: Config)
    requires UsesDefaults(cfg)
    ensures FloorsOrdered(cfg) && ThresholdsOrdered(cfg) && SellPctsValid(cfg)
    ensures Cap(cfg) == if cfg.v4.enabled then 8.0 else 5.0
  {
    assert SmartFloorOf(cfg, Runner) == (if cfg.v4.enabled then 8.0 else 5.0) && SmartFloorOf(cfg, Weak) == 5.0;
  }
}
