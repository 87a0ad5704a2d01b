/** The records the dashboard passes around (types.ts), plus the small
    helper types the views share. */
module Types {

  datatype Option<+T> = None | Some(value: T)

  /** The qualitative level shown on a prediction card. */
  datatype RiskLevel = Low | Moderate | High | Critical

  /** The trend arrow shown on a prediction card. */
  datatype Trend = Up | Down | Stable

  /** The metrics a user enters for a location. Numbers are modelled as reals. */
  datatype EnvironmentalData = EnvironmentalData(
    aqi: real,
    temperature: real,
    humidity: real,
    rainfall: real,
    populationDensity: real)

  /** One disease's derived probability (an integer percentage), level, trend and advice. */
  datatype DiseasePrediction = DiseasePrediction(
    name: string,
    probability: int,
    riskLevel: RiskLevel,
    trend: Trend,
    preventionTips: seq<string>)

  /** One completed analysis. */
  datatype AnalysisResult = AnalysisResult(
    id: string,
    location: string,
    timestamp: string,
    envData: EnvironmentalData,
    predictions: seq<DiseasePrediction>,
    aiInsights: string,
    riskScore: int)

  /** One (year, disease, case count) observation feeding the trend chart. */
  datatype HistoricalEntry = HistoricalEntry(year: int, disease: string, cases: int)

  /** The colour families the views pick from: Tailwind's emerald, amber and red
      (the risk meter uses the same three as hex codes #10b981, #f59e0b, #ef4444). */
  datatype Tone = Green | Amber | Red

  /** How alarming a tone is; used to state that the classifiers are monotone. */
  function Severity(t: Tone): nat
  {
    match t
    case Green => 0
    case Amber => 1
    case Red => 2
  }
}
