/** Market and feature values, and the helpers the weather strategies share
    (core/domain/market.py, core/domain/feature.py, core/strategies/weather_utils.py). */
module WeatherUtils {
  import opened Lists

  datatype FeatureStatus = Present | Missing | Stale

  datatype SubjectKind = MarketSubject | LocationSubject | UnknownSubject

  datatype FeatureValue = FeatureValue(
    provider: string, kind: SubjectKind, subject: string, status: FeatureStatus, asOf: Option<int>, value: Option<real>)

  datatype MarketState = MarketState(
    ticker: string, series: string, bid: Option<real>, ask: Option<real>, mid: Option<real>, asOf: int,
    location: Option<string>)

  /** A dictionary from provider names to features. */
  type FeatureMap = map<string, FeatureValue>

  /** `features.get(name)`. */
  function Lookup(features: FeatureMap, name: string): Option<FeatureValue> {
    if name in features then Some(features[name]) else None
  }

  // ---------------------------------------------------------------- series and locations

  function UpperChar(c: char): char {
    if 'a' <= c <= 'z' then c - 'a' + 'A' else c
  }

  function Upper(s: string): string { MapSeq(s, UpperChar) }

  const SERIES_TO_LOCATION := [
    ("KXHIGHNY", "nyc"), ("KXHIGHCHI", "chicago"), ("KXHIGHLAX", "la"),
    ("KXHIGHMIA", "miami"), ("KXHIGHHOU", "houston"), ("KXHIGHAUS", "austin")]

  predicate WeatherSeries(series: string) { "KXHIGH" <= Upper(series) }

  function FirstPrefix(table: seq<(string, string)>, upper: string): Option<string> {
    if |table| == 0 then None
    else if table[0].0 <= upper then Some(table[0].1)
    else FirstPrefix(table[1..], upper)
  }

  function LocationForSeries(series: string): Option<string> { FirstPrefix(SERIES_TO_LOCATION, Upper(series)) }

  /** The character is this capital, in either case. */
  predicate SameLetter(c: char, capital: char) {
    if 'a' <= c <= 'z' then c as int - 32 == capital as int else c == capital
  }

  /** The series begins with this word, in whatever case. */
  predicate Begins(series: string, word: string) {
    |word| <= |series| && forall i :: 0 <= i < |word| ==> SameLetter(series[i], word[i])
  }

  lemma UpperIsCapital(c: char, capital: char)
    ensures UpperChar(c) == capital <==> SameLetter(c, capital)
  {
  }

  lemma {:induction false} FirstPrefixIff(table: seq<(string, string)>, upper: string, location: string)
    requires forall i, j :: 0 <= i < j < |table| ==> !(table[i].0 <= upper && table[j].0 <= upper)
    ensures FirstPrefix(table, upper) == Some(location)
            <==> exists i :: 0 <= i < |table| && table[i].0 <= upper && table[i].1 == location
    decreases |table|
  {
    if |table| == 0 {
    } else {
      var rest := table[1..];
      FirstPrefixIff(rest, upper, location);
      forall i | 0 <= i < |rest| ensures rest[i] == table[i + 1] { }
      if FirstPrefix(table, upper) == Some(location) && !(table[0].0 <= upper) {
        var i :| 0 <= i < |rest| && rest[i].0 <= upper && rest[i].1 == location;
        assert table[i + 1].0 <= upper;
      }
    }
  }

  lemma PrefixIsBegin(series: string, word: string)
    ensures word <= Upper(series) <==> Begins(series, word)
  {
    forall i | 0 <= i < |word| && i < |series| ensures UpperChar(series[i]) == word[i] <==> SameLetter(series[i], word[i]) {
      UpperIsCapital(series[i], word[i]);
    }
  }

  lemma SeventhLetters(i: nat, j: nat)
    requires i < j < |SERIES_TO_LOCATION|
    ensures |SERIES_TO_LOCATION[i].0| > 6 && |SERIES_TO_LOCATION[j].0| > 6
    ensures SERIES_TO_LOCATION[i].0[6] != SERIES_TO_LOCATION[j].0[6]
  {
  }

  /** A series is at a location exactly when it begins with the location's word, in any case. */
  lemma LocationIff(series: string, location: string)
    ensures LocationForSeries(series) == Some(location)
            <==> exists i :: 0 <= i < |SERIES_TO_LOCATION| && Begins(series, SERIES_TO_LOCATION[i].0) && SERIES_TO_LOCATION[i].1 == location
  {
    var table, upper := SERIES_TO_LOCATION, Upper(series);
    forall i | 0 <= i < |table| ensures table[i].0 <= upper <==> Begins(series, table[i].0) { PrefixIsBegin(series, table[i].0); }
    forall i, j | 0 <= i < j < |table| ensures !(table[i].0 <= upper && table[j].0 <= upper) { SeventhLetters(i, j); }
    FirstPrefixIff(table, upper, location);
  }

  /** The six places, by the first letters of a series. */
  lemma SixPlaces(series: string)
    ensures LocationForSeries(series)
         == if Begins(series, "KXHIGHNY") then Some("nyc")
            else if Begins(series, "KXHIGHCHI") then Some("chicago")
            else if Begins(series, "KXHIGHLAX") then Some("la")
            else if Begins(series, "KXHIGHMIA") then Some("miami")
            else if Begins(series, "KXHIGHHOU") then Some("houston")
            else if Begins(series, "KXHIGHAUS") then Some("austin")
            else None
  {
    var table := SERIES_TO_LOCATION;
    forall i | 0 <= i < |table| && Begins(series, table[i].0) ensures LocationForSeries(series) == Some(table[i].1) {
      LocationIff(series, table[i].1);
    }
    if LocationForSeries(series).Some? { LocationIff(series, LocationForSeries(series).value); }
    assert table[0].0 == "KXHIGHNY" && table[1].0 == "KXHIGHCHI" && table[2].0 == "KXHIGHLAX";
    assert table[3].0 == "KXHIGHMIA" && table[4].0 == "KXHIGHHOU" && table[5].0 == "KXHIGHAUS";
  }

  lemma LocatedIsWeather(series: string, location: string)
    requires LocationForSeries(series) == Some(location)
    ensures WeatherSeries(series)
  {
    LocationIff(series, location);
    var i :| 0 <= i < |SERIES_TO_LOCATION| && Begins(series, SERIES_TO_LOCATION[i].0);
    PrefixIsBegin(series, SERIES_TO_LOCATION[i].0);
    CommonPrefix(i);
  }

  lemma CommonPrefix(i: nat)
    requires i < |SERIES_TO_LOCATION|
    ensures "KXHIGH" <= SERIES_TO_LOCATION[i].0
  {
  }

  // ---------------------------------------------------------------- probabilities

  function Clamp(low: real, high: real, x: real): real {
    if x < low then low else if x > high then high else x
  }

  function EnsembleToProb(temp: real): real { Clamp(0.05, 0.95, (temp - 32.0) / 100.0) }

  function ProbToTemp(prob: real): real { prob * 100.0 + 32.0 }

  function NumericFeature(f: Option<FeatureValue>): Option<real> {
    if f.None? || !f.value.status.Present? then None else f.value.value
  }
}
