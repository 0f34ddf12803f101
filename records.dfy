/**
 * The rows the database returns for each query template (one datatype per
 * template, with the column names of its SELECT list), and the query that a
 * route hands to the database: SQL text plus its named parameters.
 */
module Records {
  import opened Values

  /** A statement and its named parameters; an absent request argument binds NULL. */
  datatype Query = Query(sql: string, params: map<string, Option<string>>)

  /** `SELECT name, lon, lat, elevation_in_metres, comment, record_observations, accuracy_in_metres, provider`. */
  datatype LocationRecord = LocationRecord(
    name: string,
    lon: Num,
    lat: Num,
    elevationInMetres: Option<Num>,
    comment: Option<string>,
    recordObservations: Option<bool>,
    accuracyInMetres: Option<Num>,
    provider: string)

  /** The single row of a `SELECT COUNT(*) FROM (...) src` statement. */
  datatype CountRecord = CountRecord(count: nat)

  /** `SELECT loc_name, height, agg_avg, agg_cnt, time`: a daily average per height band. */
  datatype TimeTemperatureRecord = TimeTemperatureRecord(
    locName: string,
    height: Num,
    aggAvg: Option<Num>,
    aggCnt: nat,
    time: Timestamp)

  /** `SELECT DISTINCT height`. */
  datatype HeightRecord = HeightRecord(height: Num)

  /** `SELECT loc_name, height, max, min, average_value, cnt`: the regime of one height band. */
  datatype ThermalRegimeRecord = ThermalRegimeRecord(
    locName: string,
    height: Num,
    max: Option<Num>,
    min: Option<Num>,
    averageValue: Option<Num>,
    cnt: nat)

  /** `SELECT name, label, ffrom, tto, numeric_value, text_value`: a categorical observation. */
  datatype RangeRecord = RangeRecord(
    name: string,
    sensorLabel: string,
    heightMaxMetres: Num,  // selected as ffrom
    heightMinMetres: Num,  // selected as tto
    numericValue: Option<Num>,
    textValue: Option<string>)

  /** `SELECT DISTINCT label`. */
  datatype CategoryRecord = CategoryRecord(sensorLabel: string)
}
