/** The constants of the application's configuration that the alert logic reads, and its alert levels. */
module Config {

  /** How far ahead the forecast is searched for a storm, in hours. */
  const ForecastHoursAhead: int := 8

  /** The same look-ahead window in milliseconds. */
  const ForecastWindowMs: int := ForecastHoursAhead * 60 * 60 * 1000

  /** The initial storm threshold, in km/h. */
  const DefaultThreshold: int := 50

  /** A storm whose wind or gust reaches this speed (km/h) is graded red. */
  const RedThreshold: int := 70

  /** Configured beside RedThreshold but read by no evaluator. */
  const YellowThreshold: int := 50

  /** The alert levels; Unset is the level 'none' reported when there is no forecast to analyse. */
  datatype AlertLevel = Unset | Green | Yellow | Red
}
