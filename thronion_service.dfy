/**
 * The Thronion service layer (thronion/src/service/mod.rs): the settings
 * records with their defaults, `ThronionConfig::validate`, which checks
 * four classifier fields in a fixed order and reports the first failure,
 * and the running flag of `ThronionService`.
 */
module ThronionServices {
  import opened Numerics

  datatype ThronionSettings = ThronionSettings(
    maxRegions: nat,
    learningRate: real,
    attackThreshold: real,
    resonanceThreshold: real,
    optimizationInterval: nat,
    coherenceThreshold: real,
    mergeThreshold: real)

  datatype TorSettings = TorSettings(controlPort: nat, cookiePath: string, controlPassword: Option<string>)

  datatype ServiceSettings = ServiceSettings(bindAddress: string, workerThreads: nat)

  datatype MonitoringSettings = MonitoringSettings(enableMetrics: bool, metricsPort: nat, verboseLogging: bool, logFile: Option<string>)

  datatype PerformanceSettings = PerformanceSettings(maxTrackedCircuits: nat, metadataRetentionSecs: nat)

  datatype ThronionConfig = ThronionConfig(
    thronion: ThronionSettings,
    tor: TorSettings,
    service: ServiceSettings,
    monitoring: MonitoringSettings,
    performance: PerformanceSettings)

  function DefaultThronionSettings(): ThronionSettings
  {
    ThronionSettings(100, 0.1, 0.5, 0.3, 100, 0.05, 0.9)
  }

  function DefaultConfig(): ThronionConfig
  {
    ThronionConfig(
      DefaultThronionSettings(),
      TorSettings(9051, "/var/run/tor/control.authcookie", None),
      ServiceSettings("127.0.0.1", 4),
      MonitoringSettings(true, 9090, false, Some("/var/log/thronion/thronion.log")),
      PerformanceSettings(10000, 3600))
  }

  /** The four reasons `validate` can give, in the order it checks them. */
  datatype ConfigError =
    | NoRegions
    | AttackThresholdOutOfRange
    | ResonanceThresholdOutOfRange
    | MergeThresholdOutOfRange

  datatype Validation = Accepted | Rejected(error: ConfigError)

  /** `(0.0..=1.0).contains(&x)`. */
  predicate InUnitInterval(x: real)
  {
    0.0 <= x <= 1.0
  }

  /**
   * `validate`: accepted exactly when `max_regions` is positive and the
   * attack, resonance and merge thresholds lie in [0, 1]; otherwise the
   * first failing check is reported.
   */
  function Validate(c: ThronionConfig): (v: Validation)
    ensures v == Accepted <==>
              c.thronion.maxRegions > 0 && InUnitInterval(c.thronion.attackThreshold)
              && InUnitInterval(c.thronion.resonanceThreshold) && InUnitInterval(c.thronion.mergeThreshold)
    ensures v == Rejected(NoRegions) <==> c.thronion.maxRegions == 0
    ensures v == Rejected(AttackThresholdOutOfRange) <==>
              c.thronion.maxRegions > 0 && !InUnitInterval(c.thronion.attackThreshold)
    ensures v == Rejected(ResonanceThresholdOutOfRange) <==>
              c.thronion.maxRegions > 0 && InUnitInterval(c.thronion.attackThreshold)
              && !InUnitInterval(c.thronion.resonanceThreshold)
    ensures v == Rejected(MergeThresholdOutOfRange) <==>
              c.thronion.maxRegions > 0 && InUnitInterval(c.thronion.attackThreshold)
              && InUnitInterval(c.thronion.resonanceThreshold) && !InUnitInterval(c.thronion.mergeThreshold)
  {
    if c.thronion.maxRegions == 0 then Rejected(NoRegions)
    else if !InUnitInterval(c.thronion.attackThreshold) then Rejected(AttackThresholdOutOfRange)
    else if !InUnitInterval(c.thronion.resonanceThreshold) then Rejected(ResonanceThresholdOutOfRange)
    else if !InUnitInterval(c.thronion.mergeThreshold) then Rejected(MergeThresholdOutOfRange)
    else Accepted
  }

  /** The defaults are accepted, with 100 regions and control port 9051. */
  lemma DefaultsAreValid()
    ensures Validate(DefaultConfig()) == Accepted
    ensures DefaultConfig().thronion.maxRegions == 100 && DefaultConfig().tor.controlPort == 9051
  {
  }

  /** Zero regions, or an attack threshold of 1.5, are rejected whatever else the configuration holds. */
  lemma BadFieldsRejected(c: ThronionConfig)
    ensures Validate(c.(thronion := c.thronion.(maxRegions := 0))) == Rejected(NoRegions)
    ensures c.thronion.maxRegions > 0 ==>
              Validate(c.(thronion := c.thronion.(attackThreshold := 1.5))) == Rejected(AttackThresholdOutOfRange)
  {
  }

  /**
   * Only the four checked fields matter: the learning rate, the
   * optimisation interval (0 included), the coherence threshold and the
   * other sections are accepted unchecked.
   */
  lemma UncheckedFieldsIgnored(c: ThronionConfig, d: ThronionConfig)
    requires c.thronion.maxRegions == d.thronion.maxRegions
    requires c.thronion.attackThreshold == d.thronion.attackThreshold
    requires c.thronion.resonanceThreshold == d.thronion.resonanceThreshold
    requires c.thronion.mergeThreshold == d.thronion.mergeThreshold
    ensures Validate(c) == Validate(d)
  {
  }

  /** The service: its configuration and its running flag; the metrics registry is not modelled. */
  class ThronionService {
    const config: ThronionConfig
    var running: bool

    /** `new`: not running. */
    constructor (config: ThronionConfig)
      ensures this.config == config && !running
    {
      this.config := config;
      running := false;
    }

    /** `is_running`: the flag. */
    function IsRunning(): (r: bool)
      reads this
      ensures r <==> running
    {
      running
    }

    /** `start`: sets the flag. */
    method Start()
      modifies this
      ensures running
    {
      running := true;
    }

    /** `stop`: clears the flag. */
    method Stop()
      modifies this
      ensures !running
    {
      running := false;
    }
  }

  /** The lifecycle of the source's test: not running, running after start, stopped after stop. */
  method Lifecycle() returns (before: bool, started: bool, stopped: bool)
    ensures !before && started && !stopped
  {
    var service := new ThronionService(DefaultConfig());
    before := service.IsRunning();
    service.Start();
    started := service.IsRunning();
    service.Stop();
    stopped := service.IsRunning();
  }
}
