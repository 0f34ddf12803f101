/**
 * The SQL provider shared by every route: pagination and count wrapping of
 * statement text, the JSON shaping of location and count rows, and the two
 * CSV exports written to a file.
 */
module RawSqlProvider {
  import opened Values
  import opened Records
  import opened Csv
  import opened Files

  // ---------------------------------------------------------------------
  // Statement text
  // ---------------------------------------------------------------------

  /**
   * `apply_limit_and_offset`: the `limit` and `offset` request arguments are
   * spliced in as they are, LIMIT before OFFSET. A clause is added when its
   * argument is present, even when it is empty.
   */
  function ApplyLimitAndOffset(sql: string, limit: Option<string>, offset: Option<string>): (r: string)
    ensures sql <= r
    ensures limit.None? && offset.None? ==> r == sql
    ensures limit.Some? && offset.None? ==> r == sql + " LIMIT " + limit.value
    ensures limit.None? && offset.Some? ==> r == sql + " OFFSET " + offset.value
    ensures limit.Some? && offset.Some? ==> r == sql + " LIMIT " + limit.value + " OFFSET " + offset.value
  {
    var limited := if limit.Some? then sql + " LIMIT " + limit.value else sql;
    if offset.Some? then limited + " OFFSET " + offset.value else limited
  }

  const CountPrefix: string := "SELECT COUNT(*) FROM ("
  const CountSuffix: string := " ) src"

  /** `apply_count`: the statement, verbatim, as the subquery of a row count. */
  function ApplyCount(sql: string): (r: string)
    ensures |r| == |CountPrefix| + |sql| + |CountSuffix|
    ensures CountPrefix <= r
    ensures r[|CountPrefix|..|r| - |CountSuffix|] == sql
    ensures r[|r| - |CountSuffix|..] == CountSuffix
  {
    CountPrefix + sql + CountSuffix
  }

  /**
   * Counting a paginated statement counts the page: the LIMIT and OFFSET
   * clauses end up inside the parentheses, right before the closing suffix.
   */
  lemma CountOfPage(sql: string, limit: string, offset: string)
    ensures ApplyCount(ApplyLimitAndOffset(sql, Some(limit), Some(offset)))
         == CountPrefix + sql + " LIMIT " + limit + " OFFSET " + offset + CountSuffix
    ensures ApplyCount(ApplyLimitAndOffset(sql, None, None)) == CountPrefix + sql + CountSuffix
  {
  }

  // ---------------------------------------------------------------------
  // JSON shaping
  // ---------------------------------------------------------------------

  /** `float_or_null`: NULL stays null, a present value becomes a number; never fails. */
  function FloatOrNull(v: Option<Num>): (r: Value)
    ensures v.None? <==> r == VNull
    ensures v.Some? ==> r == VNum(v.value)
  {
    if v.Some? then VNum(v.value) else VNull
  }

  /** A nullable text cell as a JSON value. */
  function TextOrNull(v: Option<string>): (r: Value)
    ensures v.None? <==> r == VNull
    ensures v.Some? ==> r == VStr(v.value)
  {
    if v.Some? then VStr(v.value) else VNull
  }

  /** A nullable boolean cell as a JSON value. */
  function BoolOrNull(v: Option<bool>): (r: Value)
    ensures v.None? <==> r == VNull
    ensures v.Some? ==> r == VBool(v.value)
  {
    if v.Some? then VBool(v.value) else VNull
  }

  const LocationKeys: set<string> := {
    "name", "text", "lat", "lon", "lng", "elevation_in_metres", "comment",
    "record_observations", "accuracy_in_metres", "provider" }

  /**
   * One location row as a marker item: `text` duplicates `name` and `lng`
   * duplicates `lon` for the map front end; the nullable numerics go through
   * `float_or_null`.
   */
  function LocationItem(r: LocationRecord): (item: Item)
    ensures item.Keys == LocationKeys
    ensures item["name"] == item["text"] == VStr(r.name)
    ensures item["lon"] == item["lng"] == VNum(r.lon)
    ensures item["lat"] == VNum(r.lat)
    ensures item["elevation_in_metres"] == FloatOrNull(r.elevationInMetres)
    ensures item["accuracy_in_metres"] == FloatOrNull(r.accuracyInMetres)
    ensures item["comment"] == TextOrNull(r.comment)
    ensures item["record_observations"] == BoolOrNull(r.recordObservations)
    ensures item["provider"] == VStr(r.provider)
  {
    map[
      "name" := VStr(r.name),
      "text" := VStr(r.name),
      "lat" := VNum(r.lat),
      "lon" := VNum(r.lon),
      "lng" := VNum(r.lon),
      "elevation_in_metres" := FloatOrNull(r.elevationInMetres),
      "comment" := TextOrNull(r.comment),
      "record_observations" := BoolOrNull(r.recordObservations),
      "accuracy_in_metres" := FloatOrNull(r.accuracyInMetres),
      "provider" := VStr(r.provider)
    ]
  }

  /** `jsonify_records`: one marker item per location row, in row order. */
  method JsonifyRecords(records: seq<LocationRecord>) returns (resp: Response)
    ensures resp.Items? && |resp.items| == |records|
    ensures forall i :: 0 <= i < |records| ==> resp.items[i] == LocationItem(records[i])
  {
    var items: seq<Item> := [];
    for i := 0 to |records|
      invariant |items| == i
      invariant forall j :: 0 <= j < i ==> items[j] == LocationItem(records[j])
    {
      items := items + [LocationItem(records[i])];
    }
    resp := Items(items);
  }

  /** A count row as the item `{"count": n}`. */
  function CountItem(r: CountRecord): (item: Item)
    ensures item.Keys == {"count"} && item["count"] == VInt(r.count)
  {
    map["count" := VInt(r.count)]
  }

  /** `jsonify_count_records`: exactly one `{"count": n}` item per row, in row order. */
  method JsonifyCountRecords(records: seq<CountRecord>) returns (resp: Response)
    ensures resp.Items? && |resp.items| == |records|
    ensures forall i :: 0 <= i < |records| ==> resp.items[i] == CountItem(records[i])
  {
    var items: seq<Item> := [];
    for i := 0 to |records|
      invariant |items| == i
      invariant forall j :: 0 <= j < i ==> items[j] == CountItem(records[j])
    {
      items := items + [CountItem(records[i])];
    }
    resp := Items(items);
  }

  /** A `SELECT COUNT(*)` statement yields one row, so its response is `[{"count": n}]`. */
  lemma CountResponseOfOneRow(records: seq<CountRecord>, resp: Response)
    requires |records| == 1
    requires resp.Items? && |resp.items| == |records|
    requires forall i :: 0 <= i < |records| ==> resp.items[i] == CountItem(records[i])
    ensures resp == Items([map["count" := VInt(records[0].count)]])
  {
    assert resp.items[0] == CountItem(records[0]);
    assert resp.items == [resp.items[0]];
  }

  // ---------------------------------------------------------------------
  // CSV export: daily average temperature per height band
  // ---------------------------------------------------------------------

  const TimeTemperatureFileSql: string := @"SELECT locations.name AS loc_name, 
                                    observations.height_min_metres AS height, 
                                    AVG(observations.numeric_value) as agg_avg, 
                                    COUNT(observations.numeric_value) as agg_cnt, 
                                    TO_TIMESTAMP(FLOOR(EXTRACT('epoch' FROM observations.corrected_utc_time) / 86400) * 86400) AT TIME ZONE 'UTC' AS time 
                               FROM observations 
                                    INNER JOIN locations ON observations.location = locations.coordinates 
                               WHERE observations.corrected_utc_time BETWEEN '1950-01-01 00:00:00+00' AND '2050-01-01 00:00:00+00' 
                                    AND locations.name = :location 
                                    AND observations.unit_of_measure = 'C' 
                                    GROUP BY observations.height_min_metres, locations.name, time 
                                    ORDER BY loc_name ASC, height DESC "

  /** The statement the export runs for one location, which is always bound. */
  function TimeTemperatureFileQuery(location: string, limit: Option<string>, offset: Option<string>): (q: Query)
    ensures TimeTemperatureFileSql <= q.sql && q.sql == ApplyLimitAndOffset(TimeTemperatureFileSql, limit, offset)
    ensures q.params == map["location" := Some(location)]
  {
    Query(ApplyLimitAndOffset(TimeTemperatureFileSql, limit, offset), map["location" := Some(location)])
  }

  const TimeTemperatureHeader: string := "name,height,agg_avg,time"
  const TimeTemperatureColumns: seq<string> := ["name", "height", "agg_avg", "time"]

  /** The four values of an exported line; `agg_cnt` is not exported. */
  function TimeTemperatureFields(r: TimeTemperatureRecord, show: Scalar -> string): seq<string>
  {
    [r.locName, show(SNum(r.height)), show(OptNumScalar(r.aggAvg)), show(STime(r.time))]
  }

  /** The line written for one row, without its newline. */
  function TimeTemperatureLine(r: TimeTemperatureRecord, show: Scalar -> string): (line: string)
    ensures line == Join(TimeTemperatureFields(r, show), ',')
  {
    var line := r.locName + "," + show(SNum(r.height)) + "," + show(OptNumScalar(r.aggAvg)) + "," + show(STime(r.time));
    JoinFour(r.locName, show(SNum(r.height)), show(OptNumScalar(r.aggAvg)), show(STime(r.time)));
    line
  }

  function TimeTemperatureLines(records: seq<TimeTemperatureRecord>, show: Scalar -> string): (lines: seq<string>)
    ensures |lines| == |records|
    ensures forall i :: 0 <= i < |records| ==> lines[i] == TimeTemperatureLine(records[i], show)
  {
    seq(|records|, i requires 0 <= i < |records| => TimeTemperatureLine(records[i], show))
  }

  lemma TimeTemperatureLinesSnoc(records: seq<TimeTemperatureRecord>, i: nat, show: Scalar -> string)
    requires i < |records|
    ensures TimeTemperatureLines(records[..i + 1], show) == TimeTemperatureLines(records[..i], show) + [TimeTemperatureLine(records[i], show)]
  {
    assert records[..i + 1][i] == records[i];
  }

  /** The whole file: the header line, then one line per row. */
  function TimeTemperatureCsv(records: seq<TimeTemperatureRecord>, show: Scalar -> string): (text: string)
    ensures TimeTemperatureHeader + "\n" <= text
  {
    Unlines([TimeTemperatureHeader] + TimeTemperatureLines(records, show))
  }

  /** No column name holds a comma or a newline. */
  lemma TimeTemperatureColumnsClean()
    ensures |TimeTemperatureColumns| >= 1 && Clean(TimeTemperatureColumns)
  {
    assert forall k :: 0 <= k < |TimeTemperatureColumns| ==> ',' !in TimeTemperatureColumns[k] && '\n' !in TimeTemperatureColumns[k];
  }

  /** The header line is the column names joined with commas. */
  lemma TimeTemperatureHeaderIsJoin()
    ensures TimeTemperatureHeader == Join(TimeTemperatureColumns, ',')
  {
    JoinFour("name", "height", "agg_avg", "time");
  }

  /**
   * Reading the export back line by line and field by field gives the
   * header's four column names and then each row's four values, in row
   * order: the file has one line more than there are rows. This holds as
   * long as no value holds a comma or a newline, since nothing is quoted.
   */
  lemma TimeTemperatureCsvRoundTrip(records: seq<TimeTemperatureRecord>, show: Scalar -> string)
    requires forall i :: 0 <= i < |records| ==> Clean(TimeTemperatureFields(records[i], show))
    ensures |Lines(TimeTemperatureCsv(records, show))| == |records| + 1
    ensures Rows(TimeTemperatureCsv(records, show))
         == [TimeTemperatureColumns] + seq(|records|, i requires 0 <= i < |records| => TimeTemperatureFields(records[i], show))
  {
    TimeTemperatureHeaderIsJoin();
    TimeTemperatureColumnsClean();
    var lines := [TimeTemperatureHeader] + TimeTemperatureLines(records, show);
    var rows := [TimeTemperatureColumns] + seq(|records|, i requires 0 <= i < |records| => TimeTemperatureFields(records[i], show));
    forall i | 0 <= i < |rows|
      ensures |rows[i]| >= 1 && Clean(rows[i]) && lines[i] == Join(rows[i], ',')
    {
      if i > 0 {
        assert rows[i] == TimeTemperatureFields(records[i - 1], show) && lines[i] == TimeTemperatureLine(records[i - 1], show);
      }
    }
    RowsRoundTrip(lines, rows);
  }

  /**
   * `write_observation_time_temperature_into_file`: truncates the file, runs
   * the paginated statement for the location, and writes the header and then
   * one line per row.
   */
  method WriteObservationTimeTemperatureIntoFile(
    fs: FileSystem, fullpath: string, location: string,
    limit: Option<string>, offset: Option<string>,
    db: Query -> seq<TimeTemperatureRecord>, show: Scalar -> string)
    modifies fs
    ensures fs.files == old(fs.files)[fullpath := TimeTemperatureCsv(db(TimeTemperatureFileQuery(location, limit, offset)), show)]
    ensures fs.folders == old(fs.folders) && fs.archives == old(fs.archives)
  {
    fs.OpenForWrite(fullpath);
    var records := db(TimeTemperatureFileQuery(location, limit, offset));
    WriteTimeTemperatureLines(fs, fullpath, records, show);
  }

  /** The writes into the file opened for the export: the header, then one line per row. */
  method WriteTimeTemperatureLines(fs: FileSystem, fullpath: string, records: seq<TimeTemperatureRecord>, show: Scalar -> string)
    requires fullpath in fs.files && fs.files[fullpath] == ""
    modifies fs
    ensures fs.files == old(fs.files)[fullpath := TimeTemperatureCsv(records, show)]
    ensures fs.folders == old(fs.folders) && fs.archives == old(fs.archives)
  {
    fs.Write(fullpath, TimeTemperatureHeader + "\n");
    ghost var written := [TimeTemperatureHeader];
    assert Unlines(written) == "" + (TimeTemperatureHeader + "\n");
    for i := 0 to |records|
      invariant written == [TimeTemperatureHeader] + TimeTemperatureLines(records[..i], show)
      invariant fs.files == old(fs.files)[fullpath := Unlines(written)]
      invariant fs.folders == old(fs.folders) && fs.archives == old(fs.archives)
    {
      var line := TimeTemperatureLine(records[i], show);
      fs.Write(fullpath, line + "\n");
      UnlinesSnoc(written, line);
      assert Unlines(written + [line]) == Unlines(written) + (line + "\n");
      TimeTemperatureLinesSnoc(records, i, show);
      written := written + [line];
    }
    assert records[..|records|] == records;
  }

  // ---------------------------------------------------------------------
  // CSV export: thermal regime per height band
  // ---------------------------------------------------------------------

  const TemperatureHeightFileSql: string := @"SELECT locations.name AS loc_name, observations.
                                            height_min_metres AS height, 
                                            MAX(observations.numeric_value) AS max, 
                                            MIN(observations.numeric_value) AS min, 
                                            AVG(observations.numeric_value) as average_value, 
                                            COUNT(observations.numeric_value) as cnt 
                                      FROM observations 
                                           INNER JOIN locations ON observations.location = locations.coordinates 
                                     WHERE observations.corrected_utc_time BETWEEN :start_date 
                                       AND :end_date 
                                       AND locations.name = :location 
                                       AND observations.unit_of_measure = 'C' 
                                    GROUP BY observations.height_min_metres, locations.name 
                                    ORDER BY loc_name ASC, height DESC; "

  /** The statement the export runs for one location and date range. */
  function TemperatureHeightFileQuery(
    location: string, startDate: Option<string>, endDate: Option<string>,
    limit: Option<string>, offset: Option<string>): (q: Query)
    ensures TemperatureHeightFileSql <= q.sql && q.sql == ApplyLimitAndOffset(TemperatureHeightFileSql, limit, offset)
    ensures q.params.Keys == {"location", "start_date", "end_date"}
    ensures q.params["location"] == Some(location)
    ensures q.params["start_date"] == startDate && q.params["end_date"] == endDate
  {
    Query(ApplyLimitAndOffset(TemperatureHeightFileSql, limit, offset),
          map["location" := Some(location), "start_date" := startDate, "end_date" := endDate])
  }

  const TemperatureHeightHeader: string := "name,height,max,min,average_value,cnt"
  const TemperatureHeightColumns: seq<string> := ["name", "height", "max", "min", "average_value", "cnt"]

  /** The six values of an exported line. */
  function TemperatureHeightFields(r: ThermalRegimeRecord, show: Scalar -> string): seq<string>
  {
    [r.locName, show(SNum(r.height)), show(OptNumScalar(r.max)), show(OptNumScalar(r.min)),
     show(OptNumScalar(r.averageValue)), show(SInt(r.cnt))]
  }

  /** The line written for one row, without its newline. */
  function TemperatureHeightLine(r: ThermalRegimeRecord, show: Scalar -> string): (line: string)
    ensures line == Join(TemperatureHeightFields(r, show), ',')
  {
    var line := r.locName + "," + show(SNum(r.height)) + "," + show(OptNumScalar(r.max)) + "," + show(OptNumScalar(r.min))
      + "," + show(OptNumScalar(r.averageValue)) + "," + show(SInt(r.cnt));
    JoinSix(r.locName, show(SNum(r.height)), show(OptNumScalar(r.max)), show(OptNumScalar(r.min)),
            show(OptNumScalar(r.averageValue)), show(SInt(r.cnt)));
    line
  }

  function TemperatureHeightLines(records: seq<ThermalRegimeRecord>, show: Scalar -> string): (lines: seq<string>)
    ensures |lines| == |records|
    ensures forall i :: 0 <= i < |records| ==> lines[i] == TemperatureHeightLine(records[i], show)
  {
    seq(|records|, i requires 0 <= i < |records| => TemperatureHeightLine(records[i], show))
  }

  lemma TemperatureHeightLinesSnoc(records: seq<ThermalRegimeRecord>, i: nat, show: Scalar -> string)
    requires i < |records|
    ensures TemperatureHeightLines(records[..i + 1], show) == TemperatureHeightLines(records[..i], show) + [TemperatureHeightLine(records[i], show)]
  {
    assert records[..i + 1][i] == records[i];
  }

  /** The whole file: the header line, then one line per row. */
  function TemperatureHeightCsv(records: seq<ThermalRegimeRecord>, show: Scalar -> string): (text: string)
    ensures TemperatureHeightHeader + "\n" <= text
  {
    Unlines([TemperatureHeightHeader] + TemperatureHeightLines(records, show))
  }

  /** No column name holds a comma or a newline. */
  lemma TemperatureHeightColumnsClean()
    ensures |TemperatureHeightColumns| >= 1 && Clean(TemperatureHeightColumns)
  {
    assert forall k :: 0 <= k < |TemperatureHeightColumns| ==> ',' !in TemperatureHeightColumns[k] && '\n' !in TemperatureHeightColumns[k];
  }

  /** The header line is the column names joined with commas. */
  lemma TemperatureHeightHeaderIsJoin()
    ensures TemperatureHeightHeader == Join(TemperatureHeightColumns, ',')
  {
    JoinSix("name", "height", "max", "min", "average_value", "cnt");
  }

  /** Reading the export back gives the six column names, then each row's six values. */
  lemma TemperatureHeightCsvRoundTrip(records: seq<ThermalRegimeRecord>, show: Scalar -> string)
    requires forall i :: 0 <= i < |records| ==> Clean(TemperatureHeightFields(records[i], show))
    ensures |Lines(TemperatureHeightCsv(records, show))| == |records| + 1
    ensures Rows(TemperatureHeightCsv(records, show))
         == [TemperatureHeightColumns] + seq(|records|, i requires 0 <= i < |records| => TemperatureHeightFields(records[i], show))
  {
    TemperatureHeightHeaderIsJoin();
    TemperatureHeightColumnsClean();
    var lines := [TemperatureHeightHeader] + TemperatureHeightLines(records, show);
    var rows := [TemperatureHeightColumns] + seq(|records|, i requires 0 <= i < |records| => TemperatureHeightFields(records[i], show));
    forall i | 0 <= i < |rows|
      ensures |rows[i]| >= 1 && Clean(rows[i]) && lines[i] == Join(rows[i], ',')
    {
      if i > 0 {
        assert rows[i] == TemperatureHeightFields(records[i - 1], show) && lines[i] == TemperatureHeightLine(records[i - 1], show);
      }
    }
    RowsRoundTrip(lines, rows);
  }

  /**
   * `write_observation_temperature_height_into_file`: truncates the file,
   * runs the paginated statement for the location and date range, and writes
   * the header and then one line per row.
   */
  method WriteObservationTemperatureHeightIntoFile(
    fs: FileSystem, fullpath: string, location: string,
    startDate: Option<string>, endDate: Option<string>,
    limit: Option<string>, offset: Option<string>,
    db: Query -> seq<ThermalRegimeRecord>, show: Scalar -> string)
    modifies fs
    ensures fs.files == old(fs.files)[fullpath :=
      TemperatureHeightCsv(db(TemperatureHeightFileQuery(location, startDate, endDate, limit, offset)), show)]
    ensures fs.folders == old(fs.folders) && fs.archives == old(fs.archives)
  {
    fs.OpenForWrite(fullpath);
    var records := db(TemperatureHeightFileQuery(location, startDate, endDate, limit, offset));
    WriteTemperatureHeightLines(fs, fullpath, records, show);
  }

  /** The writes into the file opened for the export: the header, then one line per row. */
  method WriteTemperatureHeightLines(fs: FileSystem, fullpath: string, records: seq<ThermalRegimeRecord>, show: Scalar -> string)
    requires fullpath in fs.files && fs.files[fullpath] == ""
    modifies fs
    ensures fs.files == old(fs.files)[fullpath := TemperatureHeightCsv(records, show)]
    ensures fs.folders == old(fs.folders) && fs.archives == old(fs.archives)
  {
    fs.Write(fullpath, TemperatureHeightHeader + "\n");
    ghost var written := [TemperatureHeightHeader];
    assert Unlines(written) == "" + (TemperatureHeightHeader + "\n");
    for i := 0 to |records|
      invariant written == [TemperatureHeightHeader] + TemperatureHeightLines(records[..i], show)
      invariant fs.files == old(fs.files)[fullpath := Unlines(written)]
      invariant fs.folders == old(fs.folders) && fs.archives == old(fs.archives)
    {
      var line := TemperatureHeightLine(records[i], show);
      fs.Write(fullpath, line + "\n");
      UnlinesSnoc(written, line);
      assert Unlines(written + [line]) == Unlines(written) + (line + "\n");
      TemperatureHeightLinesSnoc(records, i, show);
      written := written + [line];
    }
    assert records[..|records|] == records;
  }
}
