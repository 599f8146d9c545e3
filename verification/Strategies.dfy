/** The two registered weather strategies (core/strategies/). */
module Strategies {
  import opened Lists
  import opened Domain
  import opened WeatherUtils
  import Features
  import LedgerSpec

  /** The registry, in evaluation order. */
  const REGISTERED := [LedgerSpec.ENSEMBLE_DISAGREEMENT, LedgerSpec.STALE_QUOTE]

  /** Only the features that speak about this market and its location. */
  function ScopedTo(features: FeatureMap, location: string, ticker: string): FeatureMap {
    map name | name in features
               && features[name].subject == (if name == Features.KALSHI_SPREAD then ticker else location)
      :: features[name]
  }

  /** Every required feature is there and present: missing and stale ones block the signal. */
  predicate RequiredPresent(required: set<string>, features: FeatureMap) {
    forall name :: name in required ==> name in features && features[name].status.Present?
  }

  const BASE_FEATURES := {Features.ENSEMBLE_MEAN_TEMP, Features.KALSHI_SPREAD}

  function Min(a: real, b: real): real { if a < b then a else b }

  function SideFor(mean: real, mid: real): Side { if mean >= ProbToTemp(mid) then Yes else No }

  function EvaluateDisagreement(market: MarketState, features: FeatureMap, config: StrategyConfig): Option<SignalDraft> {
    var location := LocationForSeries(market.series);
    if !WeatherSeries(market.series) || location.None? then None
    else
      var scoped := ScopedTo(features, location.value, market.ticker);
      if !RequiredPresent(BASE_FEATURES + {Features.FORECAST_DISAGREEMENT}, scoped) then None
      else
        var disagreement := NumericFeature(Lookup(scoped, Features.FORECAST_DISAGREEMENT));
        var spread := NumericFeature(Lookup(scoped, Features.KALSHI_SPREAD));
        var mean := NumericFeature(Lookup(scoped, Features.ENSEMBLE_MEAN_TEMP));
        if disagreement.None? || spread.None? || mean.None? || market.mid.None? then None
        else
          var mid := market.mid.value;
          var prob := EnsembleToProb(mean.value);
          var divergence := Features.Abs(mid - prob);
          var floor := OrDefault(config.confidenceFloor, DEFAULT_CONFIDENCE_FLOOR);
          if disagreement.value < OrDefault(config.disagreementThreshold, DEFAULT_DISAGREEMENT_THRESHOLD) then None
          else if divergence <= spread.value * OrDefault(config.spreadMarginMultiplier, DEFAULT_SPREAD_MARGIN_MULTIPLIER)
          then None
          else
            Some(SignalDraft(market.ticker, prob,
                             Min(1.0, floor + disagreement.value / 10.0 + divergence / 0.2),
                             SideFor(mean.value, mid)))
  }

  function EvaluateStaleQuote(market: MarketState, features: FeatureMap, config: StrategyConfig): Option<SignalDraft> {
    var location := LocationForSeries(market.series);
    if !WeatherSeries(market.series) || location.None? then None
    else
      var scoped := ScopedTo(features, location.value, market.ticker);
      if !RequiredPresent(BASE_FEATURES, scoped) then None
      else
        var spread := NumericFeature(Lookup(scoped, Features.KALSHI_SPREAD));
        var mean := NumericFeature(Lookup(scoped, Features.ENSEMBLE_MEAN_TEMP));
        if spread.None? || mean.None? || market.mid.None? then None
        else if spread.value < OrDefault(config.wideSpreadThreshold, DEFAULT_WIDE_SPREAD_THRESHOLD) then None
        else
          Some(SignalDraft(market.ticker, EnsembleToProb(mean.value),
                           Min(1.0, OrDefault(config.confidenceFloor, DEFAULT_CONFIDENCE_FLOOR) + spread.value),
                           SideFor(mean.value, market.mid.value)))
  }

  function Evaluate(name: string, market: MarketState, features: FeatureMap, config: StrategyConfig): Option<SignalDraft> {
    if name == LedgerSpec.ENSEMBLE_DISAGREEMENT then EvaluateDisagreement(market, features, config)
    else if name == LedgerSpec.STALE_QUOTE then EvaluateStaleQuote(market, features, config)
    else None
  }
}
