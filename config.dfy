/**
 * Healing configuration: four fixed presets and the one process-wide
 * active configuration, replaced wholesale by mode or merged field by field.
 */
module Config {
  import opened Wrappers

  datatype HealingMode = Conservative | Moderate | Aggressive | Disabled

  datatype HealingConfig = HealingConfig(
    mode: HealingMode,
    maxRetries: int,
    retryDelayMs: int,
    useExponentialBackoff: bool,
    enableAIFallback: bool,
    enableVisualMatching: bool,
    logHealingAttempts: bool,
    autoUpdateLocators: bool)

  /** `Partial<HealingConfig>`: a field is `Some` exactly when the override object has it. */
  datatype PartialHealingConfig = PartialHealingConfig(
    mode: Option<HealingMode>,
    maxRetries: Option<int>,
    retryDelayMs: Option<int>,
    useExponentialBackoff: Option<bool>,
    enableAIFallback: Option<bool>,
    enableVisualMatching: Option<bool>,
    logHealingAttempts: Option<bool>,
    autoUpdateLocators: Option<bool>)

  /** DEFAULT_HEALING_CONFIGS[m]. */
  function Preset(m: HealingMode): HealingConfig {
    match m
    case Conservative => HealingConfig(Conservative, 2, 1000, true, false, false, true, false)
    case Moderate => HealingConfig(Moderate, 3, 1000, true, true, false, true, false)
    case Aggressive => HealingConfig(Aggressive, 5, 500, true, true, true, true, true)
    case Disabled => HealingConfig(Disabled, 0, 0, false, false, false, false, false)
  }

  /** `{ ...c, ...p }`: every field present in `p` wins. */
  function Merge(c: HealingConfig, p: PartialHealingConfig): HealingConfig {
    HealingConfig(
      p.mode.GetOr(c.mode),
      p.maxRetries.GetOr(c.maxRetries),
      p.retryDelayMs.GetOr(c.retryDelayMs),
      p.useExponentialBackoff.GetOr(c.useExponentialBackoff),
      p.enableAIFallback.GetOr(c.enableAIFallback),
      p.enableVisualMatching.GetOr(c.enableVisualMatching),
      p.logHealingAttempts.GetOr(c.logHealingAttempts),
      p.autoUpdateLocators.GetOr(c.autoUpdateLocators))
  }

  /** Every preset is stored under its own mode. */
  lemma PresetModeIsKey(m: HealingMode)
    ensures Preset(m).mode == m
  {
  }

  /** The disabled preset turns every healing feature off. */
  lemma DisabledPreset()
    ensures var c := Preset(Disabled);
      c.maxRetries == 0 && c.retryDelayMs == 0 && !c.useExponentialBackoff
      && !c.enableAIFallback && !c.enableVisualMatching && !c.logHealingAttempts && !c.autoUpdateLocators
  {
  }

  lemma EnabledPresets()
    ensures var c := Preset(Moderate);
      c.maxRetries == 3 && c.retryDelayMs == 1000 && c.useExponentialBackoff && c.enableAIFallback
      && !c.enableVisualMatching && c.logHealingAttempts && !c.autoUpdateLocators
    ensures var c := Preset(Conservative);
      c.maxRetries == 2 && c.retryDelayMs == 1000 && c.useExponentialBackoff && !c.enableAIFallback
      && !c.enableVisualMatching && c.logHealingAttempts && !c.autoUpdateLocators
    ensures var c := Preset(Aggressive);
      c.maxRetries == 5 && c.retryDelayMs == 500 && c.useExponentialBackoff && c.enableAIFallback
      && c.enableVisualMatching && c.logHealingAttempts && c.autoUpdateLocators
  {
  }

  /** Merging sets exactly the fields the override carries and keeps all others. */
  lemma MergeFieldwise(c: HealingConfig, p: PartialHealingConfig)
    ensures var r := Merge(c, p);
      && (p.mode.Some? ==> r.mode == p.mode.value) && (p.mode.None? ==> r.mode == c.mode)
      && (p.maxRetries.Some? ==> r.maxRetries == p.maxRetries.value) && (p.maxRetries.None? ==> r.maxRetries == c.maxRetries)
      && (p.retryDelayMs.Some? ==> r.retryDelayMs == p.retryDelayMs.value) && (p.retryDelayMs.None? ==> r.retryDelayMs == c.retryDelayMs)
      && (p.useExponentialBackoff.Some? ==> r.useExponentialBackoff == p.useExponentialBackoff.value)
      && (p.useExponentialBackoff.None? ==> r.useExponentialBackoff == c.useExponentialBackoff)
      && (p.enableAIFallback.Some? ==> r.enableAIFallback == p.enableAIFallback.value)
      && (p.enableAIFallback.None? ==> r.enableAIFallback == c.enableAIFallback)
      && (p.enableVisualMatching.Some? ==> r.enableVisualMatching == p.enableVisualMatching.value)
      && (p.enableVisualMatching.None? ==> r.enableVisualMatching == c.enableVisualMatching)
      && (p.logHealingAttempts.Some? ==> r.logHealingAttempts == p.logHealingAttempts.value)
      && (p.logHealingAttempts.None? ==> r.logHealingAttempts == c.logHealingAttempts)
      && (p.autoUpdateLocators.Some? ==> r.autoUpdateLocators == p.autoUpdateLocators.value)
      && (p.autoUpdateLocators.None? ==> r.autoUpdateLocators == c.autoUpdateLocators)
  {
  }

  /** Applying the same override twice is the same as applying it once. */
  lemma MergeIdempotent(c: HealingConfig, p: PartialHealingConfig)
    ensures Merge(Merge(c, p), p) == Merge(c, p)
  {
  }

  /** The active configuration (the module-level `currentConfig`). */
  class HealingConfigStore {
    var current: HealingConfig

    /** At start-up the moderate preset is active. */
    constructor ()
      ensures current == Preset(Moderate)
    {
      current := Preset(Moderate);
    }

    method SetHealingConfig(m: HealingMode)
      modifies this
      ensures current == Preset(m)
    {
      current := Preset(m);
    }

    /** Reads the active configuration without changing it. */
    method GetHealingConfig() returns (c: HealingConfig)
      ensures c == current
    {
      c := current;
    }

    method SetCustomHealingConfig(p: PartialHealingConfig)
      modifies this
      ensures current == Merge(old(current), p)
    {
      current := Merge(current, p);
    }
  }

  /** A mode selection followed by a read yields the preset, whatever was active before. */
  method SelectThenRead(store: HealingConfigStore, m: HealingMode) returns (c: HealingConfig)
    modifies store
    ensures c == Preset(m) && store.current == c
  {
    store.SetHealingConfig(m);
    c := store.GetHealingConfig();
  }
}
