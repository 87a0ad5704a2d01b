/** The seed data the application starts from (constants.tsx). */
module Constants {
  import opened Types

  /** INITIAL_HISTORICAL_DATA: five years of Dengue, then five years of Malaria. */
  function InitialHistoricalData(): seq<HistoricalEntry>
  {
    [ HistoricalEntry(2019, "Dengue", 120),
      HistoricalEntry(2020, "Dengue", 240),
      HistoricalEntry(2021, "Dengue", 180),
      HistoricalEntry(2022, "Dengue", 310),
      HistoricalEntry(2023, "Dengue", 450),
      HistoricalEntry(2019, "Malaria", 80),
      HistoricalEntry(2020, "Malaria", 100),
      HistoricalEntry(2021, "Malaria", 90),
      HistoricalEntry(2022, "Malaria", 120),
      HistoricalEntry(2023, "Malaria", 150) ]
  }
}
