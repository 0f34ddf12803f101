/**
 * The read routes over locations and observations. Each route reads its
 * request arguments, assembles a statement, hands it to the database (the
 * `db` parameter: whatever rows the database returns for that query), and
 * shapes the rows into items with a loop, one item per row.
 */
module LocationOfObservationsView {
  import opened Values
  import opened Records
  import opened RawSqlProvider

  /**
   * The pagination arguments of a request, applied to a statement: the
   * statement comes first, and is unchanged without either argument.
   */
  function Paginate(sql: string, args: map<string, string>): (r: string)
    ensures sql <= r
    ensures "limit" !in args && "offset" !in args ==> r == sql
    ensures r == ApplyLimitAndOffset(sql, Arg(args, "limit"), Arg(args, "offset"))
  {
    ApplyLimitAndOffset(sql, Arg(args, "limit"), Arg(args, "offset"))
  }

  // ---------------------------------------------------------------------
  // Request-parameter normalisation
  // ---------------------------------------------------------------------

  /** `s.replace("*", "%")`. */
  function ReplaceStars(s: string): (r: string)
    ensures |r| == |s|
    ensures forall i :: 0 <= i < |s| ==> r[i] == (if s[i] == '*' then '%' else s[i])
  {
    if s == "" then "" else [if s[0] == '*' then '%' else s[0]] + ReplaceStars(s[1..])
  }

  /**
   * `get_name_pattern`: the LIKE pattern for location names. An absent or
   * empty argument matches every name; otherwise each `*` wildcard becomes
   * SQL's `%` and every other character is kept.
   */
  function NamePattern(arg: Option<string>): (r: string)
    ensures arg.None? || arg.value == "" ==> r == "%"
    ensures arg.Some? && arg.value != "" ==>
      |r| == |arg.value| &&
      forall i :: 0 <= i < |r| ==> r[i] == (if arg.value[i] == '*' then '%' else arg.value[i])
    ensures r != "" && '*' !in r
  {
    var replaced := if arg.Some? && arg.value != "" then Some(ReplaceStars(arg.value)) else arg;
    if replaced.Some? && replaced.value != "" then replaced.value else "%"
  }

  /** The `geometry_type` argument, `'ST_Point'` when absent or empty. */
  function GeometryType(arg: Option<string>): (r: string)
    ensures arg.None? || arg.value == "" ==> r == "ST_Point"
    ensures arg.Some? && arg.value != "" ==> r == arg.value
    ensures r != ""
  {
    if arg.Some? && arg.value != "" then arg.value else "ST_Point"
  }

  // ---------------------------------------------------------------------
  // Locations
  // ---------------------------------------------------------------------

  const LocationsSql: string := @"SELECT name, 
                              ST_X(coordinates) AS lon, 
                              ST_Y(coordinates) AS lat,
                              elevation_in_metres,
                              comment,
                              record_observations,
                              accuracy_in_metres,
                              'Carleton Internal' as provider
                       FROM LOCATIONS
                       WHERE name LIKE :name_pattern AND ST_GeometryType(coordinates)=:geometry_type
                       ORDER BY name ASC"

  /** The LIKE pattern and geometry type bound by the three location routes. */
  function LocationParams(args: map<string, string>): (params: map<string, Option<string>>)
    ensures params.Keys == {"geometry_type", "name_pattern"}
    ensures params["name_pattern"].Some? && params["name_pattern"].value != ""
    ensures '*' !in params["name_pattern"].value
    ensures params["geometry_type"].Some? && params["geometry_type"].value != ""
    ensures params["geometry_type"] == Some(GeometryType(Arg(args, "geometry_type")))
    ensures params["name_pattern"] == Some(NamePattern(Arg(args, "name_pattern")))
  {
    map["geometry_type" := Some(GeometryType(Arg(args, "geometry_type"))),
        "name_pattern" := Some(NamePattern(Arg(args, "name_pattern")))]
  }

  /** The paginated location statement, bound to the pattern and geometry type of the request. */
  function LocationsQuery(args: map<string, string>): (q: Query)
    ensures LocationsSql <= q.sql && q.sql == Paginate(LocationsSql, args)
    ensures q.params == LocationParams(args)
  {
    Query(Paginate(LocationsSql, args), LocationParams(args))
  }

  /**
   * GET `/locations_of_observations` (and the identical GET
   * `/locations_of_observations_as_markers`): one marker item per location
   * row of the paginated query.
   */
  method GetLocationsOfObservations(args: map<string, string>, db: Query -> seq<LocationRecord>)
    returns (resp: Response)
    ensures var records := db(LocationsQuery(args));
      resp.Items? && |resp.items| == |records| &&
      forall i :: 0 <= i < |records| ==> resp.items[i] == LocationItem(records[i])
  {
    var records := db(LocationsQuery(args));
    resp := JsonifyRecords(records);
  }

  const LocationsCountSql: string := @"SELECT name, ST_X(coordinates) AS lon, ST_Y(coordinates) AS lat
                       FROM LOCATIONS
                       WHERE name LIKE :name_pattern AND ST_GeometryType(coordinates)=:geometry_type
                       ORDER BY name ASC"

  /** The count statement: the paginated statement wrapped by the row count, so the page is counted. */
  function LocationsCountQuery(args: map<string, string>): (q: Query)
    ensures q.sql == ApplyCount(Paginate(LocationsCountSql, args))
    ensures q.sql[|CountPrefix|..|q.sql| - |CountSuffix|] == Paginate(LocationsCountSql, args)
    ensures q.params == LocationParams(args)
  {
    Query(ApplyCount(Paginate(LocationsCountSql, args)), LocationParams(args))
  }

  /** GET `/locations_of_observations/count`: one `{"count": n}` item per count row. */
  method GetLocationsOfObservationsCount(args: map<string, string>, db: Query -> seq<CountRecord>)
    returns (resp: Response)
    ensures var records := db(LocationsCountQuery(args));
      resp.Items? && |resp.items| == |records| &&
      forall i :: 0 <= i < |records| ==> resp.items[i] == CountItem(records[i])
  {
    var records := db(LocationsCountQuery(args));
    resp := JsonifyCountRecords(records);
  }

  // ---------------------------------------------------------------------
  // Ground temperatures
  // ---------------------------------------------------------------------

  const GroundTemperaturesSql: string := @"SELECT locations.name AS loc_name, 
                            observations.height_min_metres AS height, 
                            AVG(observations.numeric_value) as agg_avg, 
                            COUNT(observations.numeric_value) as agg_cnt, 
                            TO_TIMESTAMP(FLOOR(EXTRACT('epoch' FROM observations.corrected_utc_time) / 86400) * 86400) AT TIME ZONE 'UTC' AS time 
                       FROM observations 
                            INNER JOIN locations ON observations.location = locations.coordinates 
                       WHERE observations.corrected_utc_time BETWEEN '1950-01-01 00:00:00+00' AND '2050-01-01 00:00:00+00' 
                            AND locations.name = :location 
                            AND observations.unit_of_measure = 'C' 
                            GROUP BY observations.height_min_metres, locations.name, time 
                            ORDER BY loc_name ASC, height DESC "

  /** The `location` argument as the only parameter; an absent argument binds NULL. */
  function LocationParam(args: map<string, string>): (params: map<string, Option<string>>)
    ensures params.Keys == {"location"}
    ensures "location" !in args ==> params["location"] == None
    ensures "location" in args ==> params["location"] == Some(args["location"])
  {
    map["location" := Arg(args, "location")]
  }

  function GroundTemperaturesQuery(args: map<string, string>): (q: Query)
    ensures GroundTemperaturesSql <= q.sql && q.sql == Paginate(GroundTemperaturesSql, args)
    ensures q.params == LocationParam(args)
  {
    Query(Paginate(GroundTemperaturesSql, args), LocationParam(args))
  }

  /** `float(record.agg_avg)` raises on a NULL average. */
  predicate Averaged(r: TimeTemperatureRecord)
  {
    r.aggAvg.Some?
  }

  /** A daily average as an item: `agg_cnt` is dropped. */
  function GroundTemperatureItem(r: TimeTemperatureRecord): (item: Item)
    requires Averaged(r)
    ensures item.Keys == {"loc_name", "height", "agg_avg", "time"}
    ensures "agg_cnt" !in item
    ensures item["loc_name"] == VStr(r.locName) && item["time"] == VTime(r.time)
    ensures item["height"] == VNum(r.height) && item["agg_avg"] == VNum(r.aggAvg.value)
  {
    map["loc_name" := VStr(r.locName),
        "height" := VNum(r.height),
        "agg_avg" := VNum(r.aggAvg.value),
        "time" := VTime(r.time)]
  }

  /**
   * GET `/ground_temperatures`: one item per row, in row order; a row with a
   * NULL average makes `float()` raise, and the route fails.
   */
  method GetGroundTemperatures(args: map<string, string>, db: Query -> seq<TimeTemperatureRecord>)
    returns (resp: Response)
    ensures var records := db(GroundTemperaturesQuery(args));
      (forall i :: 0 <= i < |records| ==> Averaged(records[i])) ==>
        resp.Items? && |resp.items| == |records| &&
        forall i :: 0 <= i < |records| ==> resp.items[i] == GroundTemperatureItem(records[i])
    ensures var records := db(GroundTemperaturesQuery(args));
      (exists i :: 0 <= i < |records| && !Averaged(records[i])) ==> resp == ServerError
  {
    var records := db(GroundTemperaturesQuery(args));
    resp := GroundTemperatureItems(records);
  }

  /** The loop over the rows: the first row without an average fails the route. */
  method GroundTemperatureItems(records: seq<TimeTemperatureRecord>) returns (resp: Response)
    ensures (forall i :: 0 <= i < |records| ==> Averaged(records[i])) ==>
      resp.Items? && |resp.items| == |records| &&
      forall i :: 0 <= i < |records| ==> resp.items[i] == GroundTemperatureItem(records[i])
    ensures (exists i :: 0 <= i < |records| && !Averaged(records[i])) ==> resp == ServerError
  {
    var items: seq<Item> := [];
    for i := 0 to |records|
      invariant |items| == i
      invariant forall j :: 0 <= j < i ==> Averaged(records[j]) && items[j] == GroundTemperatureItem(records[j])
    {
      if !Averaged(records[i]) {
        return ServerError;
      }
      items := items + [GroundTemperatureItem(records[i])];
    }
    resp := Items(items);
  }

  /** The count statement over the same (identical) query text, paginated first. */
  function GroundTemperaturesCountQuery(args: map<string, string>): (q: Query)
    ensures q.sql == ApplyCount(Paginate(GroundTemperaturesSql, args))
    ensures q.sql[|CountPrefix|..|q.sql| - |CountSuffix|] == GroundTemperaturesQuery(args).sql
    ensures q.params == LocationParam(args)
  {
    Query(ApplyCount(Paginate(GroundTemperaturesSql, args)), LocationParam(args))
  }

  /** GET `/ground_temperatures/count`: one `{"count": n}` item per count row. */
  method GetGroundTemperaturesCount(args: map<string, string>, db: Query -> seq<CountRecord>)
    returns (resp: Response)
    ensures var records := db(GroundTemperaturesCountQuery(args));
      resp.Items? && |resp.items| == |records| &&
      forall i :: 0 <= i < |records| ==> resp.items[i] == CountItem(records[i])
  {
    var records := db(GroundTemperaturesCountQuery(args));
    resp := JsonifyCountRecords(records);
  }

  const GroundTemperatureHeightSql: string := @"SELECT DISTINCT observations.height_min_metres AS height 
                       FROM observations 
                            INNER JOIN locations ON observations.location = locations.coordinates 
                       WHERE observations.corrected_utc_time BETWEEN '1950-01-01 00:00:00+00' AND '2050-01-01 00:00:00+00' 
                            AND locations.name = :location 
                            AND observations.unit_of_measure = 'C' 
                            GROUP BY observations.height_min_metres, locations.name, observations.corrected_utc_time"

  function GroundTemperatureHeightQuery(args: map<string, string>): (q: Query)
    ensures GroundTemperatureHeightSql <= q.sql && q.sql == Paginate(GroundTemperatureHeightSql, args)
    ensures q.params == LocationParam(args)
  {
    Query(Paginate(GroundTemperatureHeightSql, args), LocationParam(args))
  }

  function HeightItem(r: HeightRecord): (item: Item)
    ensures item.Keys == {"height"} && item["height"] == VNum(r.height)
  {
    map["height" := VNum(r.height)]
  }

  /** GET `/ground_temperatures/height`: one `{"height": h}` item per row, in row order. */
  method GetGroundTemperatureHeight(args: map<string, string>, db: Query -> seq<HeightRecord>)
    returns (resp: Response)
    ensures var records := db(GroundTemperatureHeightQuery(args));
      resp.Items? && |resp.items| == |records| &&
      forall i :: 0 <= i < |records| ==> resp.items[i] == HeightItem(records[i])
  {
    var records := db(GroundTemperatureHeightQuery(args));
    var items: seq<Item> := [];
    for i := 0 to |records|
      invariant |items| == i
      invariant forall j :: 0 <= j < i ==> items[j] == HeightItem(records[j])
    {
      items := items + [HeightItem(records[i])];
    }
    resp := Items(items);
  }

  // ---------------------------------------------------------------------
  // Ground thermal regime
  // ---------------------------------------------------------------------

  const GroundThermalRegimeSql: string := @"SELECT locations.name AS loc_name, observations.
                                height_min_metres AS height, 
                                MAX(observations.numeric_value) AS max, 
                                MIN(observations.numeric_value) AS min, 
                                AVG(observations.numeric_value) as average_value, 
                                COUNT(observations.numeric_value) as cnt 
                          FROM observations 
                               INNER JOIN locations ON observations.location = locations.coordinates 
                         WHERE observations.corrected_utc_time BETWEEN :start_date 
                           AND :end_date 
                           AND locations.name = :location 
                           AND observations.unit_of_measure = 'C' 
                        GROUP BY observations.height_min_metres, locations.name 
                        ORDER BY loc_name ASC, height DESC; "

  /** The paginated regime statement; location and dates absent from the request bind NULL. */
  function GroundThermalRegimeQuery(args: map<string, string>): (q: Query)
    ensures GroundThermalRegimeSql <= q.sql && q.sql == Paginate(GroundThermalRegimeSql, args)
    ensures q.params.Keys == {"location", "start_date", "end_date"}
    ensures forall k :: k in q.params ==> q.params[k] == Arg(args, k)
  {
    Query(Paginate(GroundThermalRegimeSql, args),
          map["location" := Arg(args, "location"),
              "start_date" := Arg(args, "start_date"),
              "end_date" := Arg(args, "end_date")])
  }

  /** `float()` raises unless the maximum, minimum and average are all present. */
  predicate Aggregated(r: ThermalRegimeRecord)
  {
    r.max.Some? && r.min.Some? && r.averageValue.Some?
  }

  /** The regime of one height band; the count becomes a float as well. */
  function ThermalRegimeItem(r: ThermalRegimeRecord): (item: Item)
    requires Aggregated(r)
    ensures item.Keys == {"loc_name", "height", "max", "min", "average_value", "cnt"}
    ensures item["loc_name"] == VStr(r.locName) && item["height"] == VNum(r.height)
    ensures item["max"] == VNum(r.max.value) && item["min"] == VNum(r.min.value)
    ensures item["average_value"] == VNum(r.averageValue.value)
    ensures item["cnt"] == VNum(Finite(r.cnt as real))
  {
    map["loc_name" := VStr(r.locName),
        "height" := VNum(r.height),
        "max" := VNum(r.max.value),
        "min" := VNum(r.min.value),
        "average_value" := VNum(r.averageValue.value),
        "cnt" := VNum(Finite(r.cnt as real))]
  }

  /**
   * GET `/ground_thermal_regime`: one item per height band, in row order; a
   * NULL aggregate makes `float()` raise, and the route fails.
   */
  method GetGroundThermalRegime(args: map<string, string>, db: Query -> seq<ThermalRegimeRecord>)
    returns (resp: Response)
    ensures var records := db(GroundThermalRegimeQuery(args));
      (forall i :: 0 <= i < |records| ==> Aggregated(records[i])) ==>
        resp.Items? && |resp.items| == |records| &&
        forall i :: 0 <= i < |records| ==> resp.items[i] == ThermalRegimeItem(records[i])
    ensures var records := db(GroundThermalRegimeQuery(args));
      (exists i :: 0 <= i < |records| && !Aggregated(records[i])) ==> resp == ServerError
  {
    var records := db(GroundThermalRegimeQuery(args));
    resp := ThermalRegimeItems(records);
  }

  /** The loop over the rows: the first row with a NULL aggregate fails the route. */
  method ThermalRegimeItems(records: seq<ThermalRegimeRecord>) returns (resp: Response)
    ensures (forall i :: 0 <= i < |records| ==> Aggregated(records[i])) ==>
      resp.Items? && |resp.items| == |records| &&
      forall i :: 0 <= i < |records| ==> resp.items[i] == ThermalRegimeItem(records[i])
    ensures (exists i :: 0 <= i < |records| && !Aggregated(records[i])) ==> resp == ServerError
  {
    var items: seq<Item> := [];
    for i := 0 to |records|
      invariant |items| == i
      invariant forall j :: 0 <= j < i ==> Aggregated(records[j]) && items[j] == ThermalRegimeItem(records[j])
    {
      if !Aggregated(records[i]) {
        return ServerError;
      }
      items := items + [ThermalRegimeItem(records[i])];
    }
    resp := Items(items);
  }

  // ---------------------------------------------------------------------
  // Categorical observations
  // ---------------------------------------------------------------------

  const ObservationsRangeSql: string := @"SELECT name, label,
                                height_max_metres as ffrom,
                                height_min_metres as tto,
                                numeric_value,
                                text_value
                           FROM observations
                                JOIN locations
                                  ON ST_Intersects(observations.location, locations.coordinates)
                                INNER JOIN sensors
                                  ON sensors.id = observations.sensor_id
                          WHERE locations.name = :location"
  const CategoryClause: string := @" AND sensors.label = :category"
  // The text of one source literal, written as two so that the verifier can
  // index the short head, where this clause and the category clause differ.
  const LabelFilter: string := " AND sensors.label IN " + @"('geo_class_1', 'ice_visual_perc',
                                                 'ice_description', 'geo_description')
                       ORDER BY label ASC, ffrom DESC"

  /**
   * The statement of `get_observations_range`, built by successive
   * concatenation: the optional category clause, then the fixed label list
   * and ordering, then pagination last.
   */
  function ObservationsRangeStatement(category: Option<string>, limit: Option<string>, offset: Option<string>): (r: string)
    ensures category.Some? ==> r == ApplyLimitAndOffset(ObservationsRangeSql + CategoryClause + LabelFilter, limit, offset)
    ensures category.None? ==> r == ApplyLimitAndOffset(ObservationsRangeSql + LabelFilter, limit, offset)
    ensures (ObservationsRangeSql + CategoryClause <= r) <==> category.Some?
  {
    var sql := ObservationsRangeSql;
    var filtered := if category.Some? then sql + CategoryClause else sql;
    var listed := filtered + LabelFilter;
    // The two clauses part at their 20th character: `I` of `IN` against `=`.
    assert LabelFilter[19] == 'I' != CategoryClause[19];
    assert (ObservationsRangeSql + LabelFilter)[|ObservationsRangeSql| + 19] == LabelFilter[19];
    ApplyLimitAndOffset(listed, limit, offset)
  }

  /** The assembled range statement; location and category absent from the request bind NULL. */
  function ObservationsRangeQuery(args: map<string, string>): (q: Query)
    ensures q.sql == ObservationsRangeStatement(Arg(args, "category"), Arg(args, "limit"), Arg(args, "offset"))
    ensures q.params.Keys == {"location", "category"}
    ensures forall k :: k in q.params ==> q.params[k] == Arg(args, k)
  {
    Query(ObservationsRangeStatement(Arg(args, "category"), Arg(args, "limit"), Arg(args, "offset")),
          map["location" := Arg(args, "location"), "category" := Arg(args, "category")])
  }

  /** `float()` raises on a NULL numeric value. */
  predicate Valued(r: RangeRecord)
  {
    r.numericValue.Some?
  }

  /**
   * A categorical observation as an item: `from` is the band's maximum
   * height and `to` its minimum, and a NaN value, which JSON cannot carry,
   * becomes the empty string.
   */
  function RangeItem(r: RangeRecord): (item: Item)
    requires Valued(r)
    ensures item.Keys == {"name", "label", "from", "to", "numeric_value", "text_value"}
    ensures item["from"] == VNum(r.heightMaxMetres) && item["to"] == VNum(r.heightMinMetres)
    ensures item["numeric_value"] == VStr("") <==> r.numericValue.value == NaN
    ensures r.numericValue.value != NaN ==> item["numeric_value"] == VNum(r.numericValue.value)
    ensures item["name"] == VStr(r.name) && item["label"] == VStr(r.sensorLabel)
    ensures item["text_value"] == TextOrNull(r.textValue)
  {
    var n := r.numericValue.value;
    map["name" := VStr(r.name),
        "label" := VStr(r.sensorLabel),
        "from" := VNum(r.heightMaxMetres),
        "to" := VNum(r.heightMinMetres),
        "numeric_value" := if n != NaN then VNum(n) else VStr(""),
        "text_value" := TextOrNull(r.textValue)]
  }

  /**
   * GET `/observations/range`: one item per observation, in row order; a
   * NULL numeric value makes `float()` raise, and the route fails.
   */
  method GetObservationsRange(args: map<string, string>, db: Query -> seq<RangeRecord>)
    returns (resp: Response)
    ensures var records := db(ObservationsRangeQuery(args));
      (forall i :: 0 <= i < |records| ==> Valued(records[i])) ==>
        resp.Items? && |resp.items| == |records| &&
        forall i :: 0 <= i < |records| ==> resp.items[i] == RangeItem(records[i])
    ensures var records := db(ObservationsRangeQuery(args));
      (exists i :: 0 <= i < |records| && !Valued(records[i])) ==> resp == ServerError
  {
    var records := db(ObservationsRangeQuery(args));
    resp := RangeItems(records);
  }

  /** The loop over the rows: the first row without a numeric value fails the route. */
  method RangeItems(records: seq<RangeRecord>) returns (resp: Response)
    ensures (forall i :: 0 <= i < |records| ==> Valued(records[i])) ==>
      resp.Items? && |resp.items| == |records| &&
      forall i :: 0 <= i < |records| ==> resp.items[i] == RangeItem(records[i])
    ensures (exists i :: 0 <= i < |records| && !Valued(records[i])) ==> resp == ServerError
  {
    var items: seq<Item> := [];
    for i := 0 to |records|
      invariant |items| == i
      invariant forall j :: 0 <= j < i ==> Valued(records[j]) && items[j] == RangeItem(records[j])
    {
      if !Valued(records[i]) {
        return ServerError;
      }
      items := items + [RangeItem(records[i])];
    }
    resp := Items(items);
  }

  const ObservationsCategoriesSql: string := @"SELECT DISTINCT label
                           FROM observations
                                JOIN locations
                                  ON ST_Intersects(observations.location, locations.coordinates)
                                INNER JOIN sensors
                                  ON sensors.id = observations.sensor_id
                          WHERE locations.name = :location
                            AND sensors.label IN ('geo_class_1', 'ice_visual_perc',
                                                 'ice_description', 'geo_description')"

  function ObservationsCategoriesQuery(args: map<string, string>): (q: Query)
    ensures ObservationsCategoriesSql <= q.sql && q.sql == Paginate(ObservationsCategoriesSql, args)
    ensures q.params == LocationParam(args)
  {
    Query(Paginate(ObservationsCategoriesSql, args), LocationParam(args))
  }

  function CategoryItem(r: CategoryRecord): (item: Item)
    ensures item.Keys == {"label"} && item["label"] == VStr(r.sensorLabel)
  {
    map["label" := VStr(r.sensorLabel)]
  }

  /** GET `/observations/categories`: one `{"label": l}` item per row, in row order. */
  method GetObservationsCategories(args: map<string, string>, db: Query -> seq<CategoryRecord>)
    returns (resp: Response)
    ensures var records := db(ObservationsCategoriesQuery(args));
      resp.Items? && |resp.items| == |records| &&
      forall i :: 0 <= i < |records| ==> resp.items[i] == CategoryItem(records[i])
  {
    var records := db(ObservationsCategoriesQuery(args));
    var items: seq<Item> := [];
    for i := 0 to |records|
      invariant |items| == i
      invariant forall j :: 0 <= j < i ==> items[j] == CategoryItem(records[j])
    {
      items := items + [CategoryItem(records[i])];
    }
    resp := Items(items);
  }
}
