/**
 * Ophanion configuration (ophanion-main/src/config.rs): the settings
 * records with their defaults, and `validate`, which checks four fields in
 * a fixed order and reports the first failure.
 */
module OphanionConfig {
  import opened Numerics

  datatype OphanionSettings = OphanionSettings(
    numGabrielCells: nat,
    spectralDim: nat,
    learningRateAlpha: real,
    decayRateBeta: real,
    initialThreshold: real,
    thresholdLearningRate: real,
    optimizationEta: real,
    targetAbsorptionRate: real,
    convergenceEpsilon: real)

  datatype TorSettings = TorSettings(controlPort: nat, cookiePath: Option<string>, controlPassword: Option<string>)

  datatype ServiceSettings = ServiceSettings(listenPort: nat, backendPort: nat, bindAddress: string)

  datatype MonitoringSettings = MonitoringSettings(enableMetrics: bool, metricsPort: nat, verboseLogging: bool, logFile: Option<string>)

  datatype PerformanceSettings = PerformanceSettings(workerThreads: nat, maxTrackedCircuits: nat, metadataRetention: nat)

  datatype Config = Config(
    ophanion: OphanionSettings,
    tor: TorSettings,
    service: ServiceSettings,
    monitoring: MonitoringSettings,
    performance: PerformanceSettings)

  function DefaultOphanion(): OphanionSettings
  {
    OphanionSettings(64, 128, 0.01, 0.001, 0.5, 0.001, 0.0001, 0.95, 0.001)
  }

  function DefaultConfig(): Config
  {
    Config(
      DefaultOphanion(),
      TorSettings(9051, Some("/var/run/tor/control.authcookie"), None),
      ServiceSettings(8080, 8081, "127.0.0.1"),
      MonitoringSettings(true, 9090, false, Some("/var/log/ophanion/ophanion.log")),
      PerformanceSettings(0, 10000, 3600))
  }

  /** The four reasons `validate` can give, in the order it checks them. */
  datatype ConfigError =
    | NoGabrielCells
    | NoSpectralDim
    | InitialThresholdOutOfRange
    | TargetAbsorptionOutOfRange

  datatype Validation = Accepted | Rejected(error: ConfigError)

  predicate InUnitInterval(x: real)
  {
    0.0 <= x <= 1.0
  }

  /**
   * `validate`: accepted exactly when there is at least one cell, a
   * positive spectral dimension, and both the initial threshold and the
   * target absorption rate lie in [0, 1]; otherwise the first failing
   * check is reported.
   */
  function Validate(c: Config): (v: Validation)
    ensures v == Accepted <==>
              c.ophanion.numGabrielCells > 0 && c.ophanion.spectralDim > 0
              && InUnitInterval(c.ophanion.initialThreshold) && InUnitInterval(c.ophanion.targetAbsorptionRate)
    ensures v == Rejected(NoGabrielCells) <==> c.ophanion.numGabrielCells == 0
    ensures v == Rejected(NoSpectralDim) <==> c.ophanion.numGabrielCells > 0 && c.ophanion.spectralDim == 0
    ensures v == Rejected(InitialThresholdOutOfRange) <==>
              c.ophanion.numGabrielCells > 0 && c.ophanion.spectralDim > 0 && !InUnitInterval(c.ophanion.initialThreshold)
    ensures v == Rejected(TargetAbsorptionOutOfRange) <==>
              c.ophanion.numGabrielCells > 0 && c.ophanion.spectralDim > 0
              && InUnitInterval(c.ophanion.initialThreshold) && !InUnitInterval(c.ophanion.targetAbsorptionRate)
  {
    if c.ophanion.numGabrielCells == 0 then Rejected(NoGabrielCells)
    else if c.ophanion.spectralDim == 0 then Rejected(NoSpectralDim)
    else if !InUnitInterval(c.ophanion.initialThreshold) then Rejected(InitialThresholdOutOfRange)
    else if !InUnitInterval(c.ophanion.targetAbsorptionRate) then Rejected(TargetAbsorptionOutOfRange)
    else Accepted
  }

  /** The defaults are accepted. */
  lemma DefaultsAreValid()
    ensures Validate(DefaultConfig()) == Accepted
    ensures DefaultConfig().ophanion.numGabrielCells == 64 && DefaultConfig().ophanion.spectralDim == 128
  {
  }

  /** Zero Gabriel cells are rejected, whatever the other fields hold. */
  lemma ZeroCellsRejected(c: Config)
    ensures Validate(c.(ophanion := c.ophanion.(numGabrielCells := 0))) == Rejected(NoGabrielCells)
  {
  }

  /**
   * Only the four checked fields matter: the learning rates, decay, eta,
   * epsilon and the non-Ophanion sections are accepted unchecked.
   */
  lemma UncheckedFieldsIgnored(c: Config, d: Config)
    requires c.ophanion.numGabrielCells == d.ophanion.numGabrielCells
    requires c.ophanion.spectralDim == d.ophanion.spectralDim
    requires c.ophanion.initialThreshold == d.ophanion.initialThreshold
    requires c.ophanion.targetAbsorptionRate == d.ophanion.targetAbsorptionRate
    ensures Validate(c) == Validate(d)
  {
  }
}
