# Permafrost observations API: a verified model of its core

The permafrost observations API is a Flask service over a PostGIS database
of permafrost monitoring sites: locations, sensors and the observations they
record (ground temperatures at several heights, and categorical logs of the
ground). Its routes read a few request arguments and assemble a SQL
statement. They hand the statement to the database and shape the rows into
JSON items. A few routes instead write CSV exports to files and send those
back, either alone or bundled in a zip archive.

This project models that logic in Dafny:

- `values.dfy` (`Values`): numbers with an explicit NaN, timestamps, the
  scalars that `str()` renders, JSON values and request bodies with Python
  truthiness, and the responses a route can give.
- `records.dfy` (`Records`): one row datatype per query template, and the
  query (text plus named parameters) a route sends to the database.
- `csv.dfy` (`Csv`): the unquoted comma-joined text the exports write, and a
  reader for it. Reading back joined lines gives the fields back whenever no
  field holds a comma or a newline.
- `files.dfy` (`Files`): POSIX `os.path.join`, and a `FileSystem` class whose
  folders, text files and zip archives the download routes change in place.
- `raw_sql_provider.dfy` (`RawSqlProvider`): pagination and count wrapping of
  statement text, `float_or_null`, the two JSON shaping loops, and the two CSV
  export methods. Each export writes a header and then one line per row.
- `location_of_observations_view.dfy` (`LocationOfObservationsView`): the name
  pattern and geometry-type defaults, the statements of every read route, the
  conditional assembly of the observation-range statement, and one shaping
  loop per route.
- `download_observation_view.dfy` (`DownloadObservationView`): the 404 and
  400 guards of the three download routes, the file and archive paths, and
  the effect of each route on the file system.

The database is a parameter `db: Query -> seq<Row>`: a route's rows are
whatever the database returns for the exact query the route builds. Python's
`str()` of a number, a timestamp or `None` is a parameter
`show: Scalar -> string`. The id of the POST archive (`str(uuid4())` in the
source) is a parameter `id`. Request arguments are a `map<string, string>`.
Response items are maps, because `jsonify` sorts keys.

A Python `float()` of a NULL aggregate raises, and Flask then answers with
status 500. The shaping loops model this as a `ServerError` response, both the
direct `float(...)` calls and the indirect one in `math.isnan(float(...))`.
The same goes for `len()` of a POST body that is a number or a boolean.

## Model

| member | source | states |
|---|---|---|
| Values.Arg | permafrost_observations_api/providers/raw_sql_provider.py:18-19 | An argument is present exactly when its key is in the request, and then it is the request's value. |
| Values.OptNumScalar | permafrost_observations_api/providers/raw_sql_provider.py:86 | A cell is rendered as Python's `None` exactly when it is NULL, and a present cell as exactly its number. |
| Values.Truthy | permafrost_observations_api/web/download_observation_view.py:39 | Python truthiness of a parsed body: null, false, zero, and the empty string, list and object are falsy. |
| Values.IndexOf | permafrost_observations_api/web/download_observation_view.py:38 | The first position of a key in the listed field names: the key is there and not before it. |
| Values.FirstOccurrences | permafrost_observations_api/web/download_observation_view.py:38 | The keys a dict keeps when built in order: only keys of the input and not already seen, none twice, every such key kept, and in the order of their first occurrences. |
| Values.FieldNames | permafrost_observations_api/web/download_observation_view.py:38 | The names of an object's fields, one per field, in the order the body lists them. |
| Values.DictKeys | permafrost_observations_api/web/download_observation_view.py:38 | The parsed dict of an object body holds each field name once and nothing else, in the order of first appearance in the body. It is empty exactly when the object has no fields. |
| Values.Elements | permafrost_observations_api/web/download_observation_view.py:39-41 | `len()` and iteration of a JSON body: a list's elements, a string's one-character strings, or the parsed dict's keys, each once. Numbers, booleans and null have none. The body is non-empty exactly when it is truthy. |
| Values.RepeatedKeyIteratedOnce | permafrost_observations_api/web/download_observation_view.py:38-43 | The body `{"a": 1, "a": 2}` is iterated as the single key `"a"`. |
| RawSqlProvider.ApplyLimitAndOffset | permafrost_observations_api/providers/raw_sql_provider.py:17-24 | The statement is always a prefix. It is unchanged with neither argument. Otherwise it gains exactly ` LIMIT v`, ` OFFSET v`, or both with LIMIT first. A present but empty argument still adds its clause. |
| RawSqlProvider.ApplyCount | permafrost_observations_api/providers/raw_sql_provider.py:26-27 | The result is `SELECT COUNT(*) FROM (` and the statement verbatim, then ` ) src`. Its length, prefix, middle and suffix are each stated. |
| RawSqlProvider.CountOfPage | permafrost_observations_api/providers/raw_sql_provider.py:17-27 | Counting a paginated statement puts LIMIT and OFFSET inside the parentheses, so the page is counted. |
| RawSqlProvider.FloatOrNull | permafrost_observations_api/providers/raw_sql_provider.py:39-40 | NULL maps to null exactly when the input is NULL, a present value maps to that number, and NULL never fails. |
| RawSqlProvider.TextOrNull | permafrost_observations_api/providers/raw_sql_provider.py:52 | A nullable text cell is null exactly when it is NULL, and otherwise it is that text. |
| RawSqlProvider.BoolOrNull | permafrost_observations_api/providers/raw_sql_provider.py:53 | A nullable boolean cell is null exactly when it is NULL, and otherwise it is that boolean. |
| RawSqlProvider.LocationItem | permafrost_observations_api/providers/raw_sql_provider.py:45-55 | The item has exactly the ten keys. `text` equals `name` and `lng` equals `lon`. `lat`, `comment`, `record_observations` and `provider` are copied. Elevation and accuracy go through `float_or_null`. |
| RawSqlProvider.JsonifyRecords | permafrost_observations_api/providers/raw_sql_provider.py:42-57 | One location item per row, with the same length and order. |
| RawSqlProvider.CountItem | permafrost_observations_api/providers/raw_sql_provider.py:62-63 | The item is exactly `{"count": n}` for the row's count. |
| RawSqlProvider.JsonifyCountRecords | permafrost_observations_api/providers/raw_sql_provider.py:59-65 | Exactly one count item per row, in row order. |
| RawSqlProvider.CountResponseOfOneRow | permafrost_observations_api/providers/raw_sql_provider.py:59-65 | The single row of a count statement gives the response `[{"count": n}]`. |
| RawSqlProvider.TimeTemperatureFileQuery | permafrost_observations_api/providers/raw_sql_provider.py:69-83 | The statement starts with the fixed time-temperature text and is paginated by the request. It binds exactly `location`, to the given location. |
| RawSqlProvider.TimeTemperatureLine | permafrost_observations_api/providers/raw_sql_provider.py:86 | An exported line is the row's name, height, average and time, joined with commas. |
| RawSqlProvider.TimeTemperatureLines | permafrost_observations_api/providers/raw_sql_provider.py:85-86 | One line per row, in row order. |
| RawSqlProvider.TimeTemperatureLinesSnoc | permafrost_observations_api/providers/raw_sql_provider.py:85-86 | Exporting one more row appends exactly that row's line. |
| RawSqlProvider.TimeTemperatureCsv | permafrost_observations_api/providers/raw_sql_provider.py:84-86 | The file starts with the header line `name,height,agg_avg,time`. |
| RawSqlProvider.TimeTemperatureColumnsClean | permafrost_observations_api/providers/raw_sql_provider.py:84 | No column name holds a comma or a newline. |
| RawSqlProvider.TimeTemperatureHeaderIsJoin | permafrost_observations_api/providers/raw_sql_provider.py:84 | The header is the four column names joined with commas. |
| RawSqlProvider.TimeTemperatureCsvRoundTrip | permafrost_observations_api/providers/raw_sql_provider.py:84-86 | Reading the file back gives one line more than there are rows. The fields read back are the four column names, then each row's four values in order, provided no value holds a comma or newline. |
| RawSqlProvider.WriteObservationTimeTemperatureIntoFile | permafrost_observations_api/providers/raw_sql_provider.py:67-86 | After the call, the file at `fullpath` holds exactly the export of the rows of the paginated statement for the location. No other file, folder or archive changes. |
| RawSqlProvider.WriteTimeTemperatureLines | permafrost_observations_api/providers/raw_sql_provider.py:84-86 | Into the freshly truncated file: afterwards it holds exactly the header and one line per row, in order. Nothing else changes. |
| RawSqlProvider.TemperatureHeightFileQuery | permafrost_observations_api/providers/raw_sql_provider.py:90-110 | The statement starts with the fixed thermal-regime text and is paginated by the request. It binds exactly `location`, `start_date` and `end_date`, to the given location and dates. |
| RawSqlProvider.TemperatureHeightLine | permafrost_observations_api/providers/raw_sql_provider.py:113-114 | An exported line is the row's six values (name, height, max, min, average, count), joined with commas. |
| RawSqlProvider.TemperatureHeightLines | permafrost_observations_api/providers/raw_sql_provider.py:112-114 | One line per row, in row order. |
| RawSqlProvider.TemperatureHeightLinesSnoc | permafrost_observations_api/providers/raw_sql_provider.py:112-114 | Exporting one more row appends exactly that row's line. |
| RawSqlProvider.TemperatureHeightCsv | permafrost_observations_api/providers/raw_sql_provider.py:111-114 | The file starts with the header line `name,height,max,min,average_value,cnt`. |
| RawSqlProvider.TemperatureHeightColumnsClean | permafrost_observations_api/providers/raw_sql_provider.py:111 | No column name holds a comma or a newline. |
| RawSqlProvider.TemperatureHeightHeaderIsJoin | permafrost_observations_api/providers/raw_sql_provider.py:111 | The header is the six column names joined with commas. |
| RawSqlProvider.TemperatureHeightCsvRoundTrip | permafrost_observations_api/providers/raw_sql_provider.py:111-114 | Reading the file back gives one line more than there are rows: the six column names, then each row's six values in order, provided no value holds a comma or newline. |
| RawSqlProvider.WriteObservationTemperatureHeightIntoFile | permafrost_observations_api/providers/raw_sql_provider.py:88-114 | After the call, the file at `fullpath` holds exactly the export of the rows of the paginated statement for the location and the date range. No other file, folder or archive changes. |
| RawSqlProvider.WriteTemperatureHeightLines | permafrost_observations_api/providers/raw_sql_provider.py:111-114 | Into the freshly truncated file: afterwards it holds exactly the header and one line per row, in order. Nothing else changes. |
| Csv.Split | permafrost_observations_api/providers/raw_sql_provider.py:86 | The reader's field splitting: at least one piece, and no piece holds the separator. |
| Csv.Rows | permafrost_observations_api/providers/raw_sql_provider.py:84-86 | The reader gives one row per line. |
| Csv.SplitJoin | permafrost_observations_api/providers/raw_sql_provider.py:86 | Splitting a join of separator-free fields gives those fields back. |
| Csv.JoinSplit | permafrost_observations_api/providers/raw_sql_provider.py:86 | Joining the pieces of a split gives the text back. |
| Csv.JoinFour | permafrost_observations_api/providers/raw_sql_provider.py:86 | Joining four values equals the concatenation the export writes. |
| Csv.JoinSix | permafrost_observations_api/providers/raw_sql_provider.py:113-114 | Joining six values equals the concatenation the export writes. |
| Csv.UnlinesSnoc | permafrost_observations_api/providers/raw_sql_provider.py:85-86 | Writing one more line appends that line and a newline to the text. |
| Csv.LinesUnlines | permafrost_observations_api/providers/raw_sql_provider.py:84-86 | Reading back newline-free lines that were written gives those lines. |
| Csv.RowsRoundTrip | permafrost_observations_api/providers/raw_sql_provider.py:84-86 | Reading back lines written as joins of clean fields gives those fields, row by row. |
| Files.PathJoin | permafrost_observations_api/web/download_observation_view.py:28 | An absolute second part replaces the folder. Otherwise, under a folder without a trailing `/`, the path is `folder/name`. |
| Files.TextFilePath | permafrost_observations_api/web/download_observation_view.py:28 | The text file of a name: `os.path.join(folder, name + '.txt')`. |
| Files.TextFilePathShape | permafrost_observations_api/web/download_observation_view.py:28 | A relative name's file is `folder/name.txt`; an absolute name ignores the folder and gives `name.txt`. |
| Files.TextFilePathInjective | permafrost_observations_api/web/download_observation_view.py:53 | Under a plain folder, two names give the same path string exactly when they are equal, so a repeated name reuses its file. |
| Files.FileSystem.Exists | permafrost_observations_api/web/download_observation_view.py:26 | `os.path.exists`: a folder, a file or an archive is at the path. |
| Files.FileSystem.MakeDirs | permafrost_observations_api/web/download_observation_view.py:26-27 | The folder is added, and files and archives are unchanged. |
| Files.FileSystem.OpenForWrite | permafrost_observations_api/providers/raw_sql_provider.py:68 | The file now exists and is empty, and nothing else changes. |
| Files.FileSystem.Write | permafrost_observations_api/providers/raw_sql_provider.py:84-86 | The text is appended to the file, and nothing else changes. |
| Files.FileSystem.CreateArchive | permafrost_observations_api/web/download_observation_view.py:51 | A new, empty archive replaces any archive at that path. |
| Files.FileSystem.AddToArchive | permafrost_observations_api/web/download_observation_view.py:55 | The member is appended last, with its current content. |
| LocationOfObservationsView.Paginate | permafrost_observations_api/web/location_of_observations_view.py:43 | The statement is a prefix of the result, and is unchanged when the request has neither `limit` nor `offset`. It is exactly the provider's pagination with the request's two arguments. |
| LocationOfObservationsView.ReplaceStars | permafrost_observations_api/web/location_of_observations_view.py:20 | The length is the same, every `*` becomes `%`, and every other character is kept. |
| LocationOfObservationsView.NamePattern | permafrost_observations_api/web/location_of_observations_view.py:17-22 | An absent or empty argument gives `%`. Otherwise every `*` becomes `%` and every other character is kept. The result is never empty and has no `*`. |
| LocationOfObservationsView.GeometryType | permafrost_observations_api/web/location_of_observations_view.py:28-29 | `ST_Point` when absent or empty, and otherwise the argument unchanged. |
| LocationOfObservationsView.LocationParams | permafrost_observations_api/web/location_of_observations_view.py:28-45 | Exactly `geometry_type` and `name_pattern` are bound, to the defaulted geometry type and the normalised name pattern of the request. Both are non-empty, and the pattern has no `*`. |
| LocationOfObservationsView.LocationsQuery | permafrost_observations_api/web/location_of_observations_view.py:32-45 | The fixed location statement, paginated by the request, bound to the request's location parameters. |
| LocationOfObservationsView.GetLocationsOfObservations | permafrost_observations_api/web/location_of_observations_view.py:27-46 | One location item per row of the paginated location query, in order. |
| LocationOfObservationsView.LocationsCountQuery | permafrost_observations_api/web/location_of_observations_view.py:80-87 | The count statement wraps the paginated statement, which sits verbatim between the count prefix and suffix. It binds the same `geometry_type` and `name_pattern` as the location route. |
| LocationOfObservationsView.GetLocationsOfObservationsCount | permafrost_observations_api/web/location_of_observations_view.py:75-93 | One count item per row of the count query, in order. |
| LocationOfObservationsView.LocationParam | permafrost_observations_api/web/location_of_observations_view.py:178-194 | Exactly `location` is bound: NULL when the request has none, and otherwise the request's value. |
| LocationOfObservationsView.GroundTemperaturesQuery | permafrost_observations_api/web/location_of_observations_view.py:180-194 | The fixed ground-temperature statement, paginated by the request, bound to the request's location. |
| LocationOfObservationsView.Averaged | permafrost_observations_api/web/location_of_observations_view.py:201 | `float(record.agg_avg)` succeeds exactly when the average is present. |
| LocationOfObservationsView.GroundTemperatureItem | permafrost_observations_api/web/location_of_observations_view.py:197-202 | The item has exactly `loc_name`, `height`, `agg_avg` and `time`, in which `agg_cnt` is dropped. Each value is the row's. |
| LocationOfObservationsView.GetGroundTemperatures | permafrost_observations_api/web/location_of_observations_view.py:177-203 | When every row has an average, one item per row comes back, in order. A row with a NULL average makes the route fail. |
| LocationOfObservationsView.GroundTemperatureItems | permafrost_observations_api/web/location_of_observations_view.py:195-203 | The loop over the rows: when every row has an average, one item per row in order; otherwise the route fails. |
| LocationOfObservationsView.GroundTemperaturesCountQuery | permafrost_observations_api/web/location_of_observations_view.py:211-226 | The count statement wraps exactly the route's paginated ground-temperature statement. It binds exactly `location`, to the request's value or NULL. |
| LocationOfObservationsView.GetGroundTemperaturesCount | permafrost_observations_api/web/location_of_observations_view.py:208-232 | One count item per row of the count query, in order. |
| LocationOfObservationsView.GroundTemperatureHeightQuery | permafrost_observations_api/web/location_of_observations_view.py:240-249 | The fixed height statement, paginated by the request, bound to the request's location. |
| LocationOfObservationsView.HeightItem | permafrost_observations_api/web/location_of_observations_view.py:252-254 | The item is exactly `{"height": h}`. |
| LocationOfObservationsView.GetGroundTemperatureHeight | permafrost_observations_api/web/location_of_observations_view.py:237-255 | One height item per row, in order. |
| LocationOfObservationsView.GroundThermalRegimeQuery | permafrost_observations_api/web/location_of_observations_view.py:261-285 | The fixed regime statement, paginated by the request. It binds exactly `location`, `start_date` and `end_date`, each to the request's argument or NULL. |
| LocationOfObservationsView.Aggregated | permafrost_observations_api/web/location_of_observations_view.py:292-294 | The three `float()` calls succeed exactly when maximum, minimum and average are all present. |
| LocationOfObservationsView.ThermalRegimeItem | permafrost_observations_api/web/location_of_observations_view.py:288-295 | The item has exactly the six keys and the row's values, and the count becomes a float. |
| LocationOfObservationsView.GetGroundThermalRegime | permafrost_observations_api/web/location_of_observations_view.py:260-296 | When every aggregate is present, one item per row comes back, in order. A NULL maximum, minimum or average makes the route fail. |
| LocationOfObservationsView.ThermalRegimeItems | permafrost_observations_api/web/location_of_observations_view.py:286-296 | The loop over the rows: when every row has its aggregates, one item per row in order; otherwise the route fails. |
| LocationOfObservationsView.ObservationsRangeStatement | permafrost_observations_api/web/location_of_observations_view.py:305-324 | The category clause is present exactly when a category is given. It comes after the base statement and before the label list and ordering. Pagination comes last. |
| LocationOfObservationsView.ObservationsRangeQuery | permafrost_observations_api/web/location_of_observations_view.py:302-326 | The assembled range statement, bound to exactly `location` and `category`, each the request's argument or NULL. |
| LocationOfObservationsView.Valued | permafrost_observations_api/web/location_of_observations_view.py:333-334 | `float(record.numeric_value)` succeeds exactly when the value is present. |
| LocationOfObservationsView.RangeItem | permafrost_observations_api/web/location_of_observations_view.py:329-336 | `from` is the maximum height and `to` the minimum. `numeric_value` is `""` exactly when the value is NaN, and otherwise it is the number. |
| LocationOfObservationsView.GetObservationsRange | permafrost_observations_api/web/location_of_observations_view.py:301-337 | When every value is present, one item per row comes back, in order. A NULL numeric value makes the route fail. |
| LocationOfObservationsView.RangeItems | permafrost_observations_api/web/location_of_observations_view.py:327-337 | The loop over the rows: when every row has a numeric value, one item per row in order; otherwise the route fails. |
| LocationOfObservationsView.ObservationsCategoriesQuery | permafrost_observations_api/web/location_of_observations_view.py:345-357 | The fixed category statement, paginated by the request, bound to the request's location. |
| LocationOfObservationsView.CategoryItem | permafrost_observations_api/web/location_of_observations_view.py:360-362 | The item is exactly `{"label": l}`. |
| LocationOfObservationsView.GetObservationsCategories | permafrost_observations_api/web/location_of_observations_view.py:342-363 | One label item per row, in order. |
| DownloadObservationView.Given | permafrost_observations_api/web/download_observation_view.py:23-24 | `if location:` holds exactly for a present, non-empty argument. |
| DownloadObservationView.FoldersWith | permafrost_observations_api/web/download_observation_view.py:26-27 | Afterwards the folder exists, or something already existed at its path. No other folder is added, and nothing changes when something already existed. |
| DownloadObservationView.EnsureFolder | permafrost_observations_api/web/download_observation_view.py:26-27 | The folder is made only if nothing exists at its path. Files and archives are unchanged. |
| DownloadObservationView.TimeTemperatureExport | permafrost_observations_api/web/download_observation_view.py:29 | The export of one location, under the request's pagination. It starts with the header line. |
| DownloadObservationView.DownloadObservationTimeTemperature | permafrost_observations_api/web/download_observation_view.py:22-32 | With no location or an empty one, the route answers 404 with `[]` and leaves the file system unchanged. Otherwise `download_observation_time_temperature/<location>.txt` holds the location's export and is sent. Nothing else changes. |
| DownloadObservationView.DownloadObservationTemperatureHeight | permafrost_observations_api/web/download_observation_view.py:63-74 | The same, under `download_observation_temperature_height`, with the export for the requested date range. |
| DownloadObservationView.AllStrings | permafrost_observations_api/web/download_observation_view.py:41-43 | The validation passes exactly when every element of the body is a string. |
| DownloadObservationView.Names | permafrost_observations_api/web/download_observation_view.py:52-53 | The names are the string elements, one per element, in order. |
| DownloadObservationView.LocationNames | permafrost_observations_api/web/download_observation_view.py:41-43 | Validation succeeds exactly when every element is a string, and then yields the names in order. |
| DownloadObservationView.ExportOf | permafrost_observations_api/web/download_observation_view.py:54 | Every location of the body is exported with the same request arguments. |
| DownloadObservationView.ArchiveEntries | permafrost_observations_api/web/download_observation_view.py:52-55 | One archive member per name, in order: the name's file path and its export. |
| DownloadObservationView.ArchiveAll | permafrost_observations_api/web/download_observation_view.py:51-55 | Each name's file holds its export, and the archive holds each file in body order. No other file changes, and no folder changes. |
| DownloadObservationView.WriteOne | permafrost_observations_api/web/download_observation_view.py:53-54 | The next location's text file now holds its export, and nothing else changes. |
| DownloadObservationView.AppendOne | permafrost_observations_api/web/download_observation_view.py:55 | The next location's file, holding its export, becomes the archive's next member. Files and folders are unchanged. |
| DownloadObservationView.FilesWritten | permafrost_observations_api/web/download_observation_view.py:52-54 | The written files are the ones before plus one per name. Each name's file holds its export, and every other file is as it was. |
| DownloadObservationView.KeysWrittenSnoc | permafrost_observations_api/web/download_observation_view.py:53-54 | Writing the next name's file adds exactly its path to the files present. |
| DownloadObservationView.ContentsWrittenSnoc | permafrost_observations_api/web/download_observation_view.py:52-54 | Writing the next name's file keeps every earlier name's file correct. This holds also when the name repeats, as the file is then the same. |
| DownloadObservationView.OthersKeptSnoc | permafrost_observations_api/web/download_observation_view.py:52-54 | Writing the next name's file leaves every file outside the written paths as it was. |
| DownloadObservationView.FilesWrittenSnoc | permafrost_observations_api/web/download_observation_view.py:52-54 | One more pass of the loop extends what has been written by exactly the next name. |
| DownloadObservationView.ArchiveEntriesSnoc | permafrost_observations_api/web/download_observation_view.py:52-55 | One more pass of the loop appends exactly the next name's file and export to the archive's members. |
| DownloadObservationView.WrittenPathsSnoc | permafrost_observations_api/web/download_observation_view.py:53 | One more name adds exactly its path to the written paths. |
| DownloadObservationView.DownloadObservationTimeTemperatures | permafrost_observations_api/web/download_observation_view.py:37-58 | A falsy body gets 404 and a body without a length fails. A non-string element gets 400, with the body echoed. None of these touches the file system. Otherwise each name's file holds its export, and a new archive `<folder>/<id>.zip` holds them in body order. That archive is sent as `observations.zip`, and no other file changes. |

The two GET routes `/locations_of_observations` and
`/locations_of_observations_as_markers` have identical bodies
(location_of_observations_view.py lines 27-46 and 51-70), so both are
modelled by `GetLocationsOfObservations`. The count routes build their items
with a loop of their own (lines 88-93 and 227-232). That loop does what
`jsonify_count_records` does, so both are modelled by `JsonifyCountRecords`.

## Left out

- `execute_sql`, `fetch_records` and `execute_sql_and_fetch_records`: these are
  SQLAlchemy session execution and row materialisation. The rows are the
  `db` parameter.
- What the SQL means (LIKE matching, the spatial predicates, the aggregates,
  grouping and the truncation to whole days): statements are modelled as
  text only.
- Flask and its decorators: `request` is a map of arguments and a JSON body.
  `jsonify`, `Response` and `send_file` are the `Response` datatype. The
  cross-origin and authorization decorators are not part of this model.
- The add, update and delete location routes
  (location_of_observations_view.py lines 95-172): they only pass their
  body to the database.
- The "hello" view, the schema creation script and the application startup.
- The `print(fullpath)` in the single time-temperature download: console
  output.
- `open()` failing when the folder is missing, and the member names a zip
  archive stores: the file system is a flat map from paths. An archive
  member is recorded under the path it was added from.
- `uuid4()`: the randomness is the `id` parameter. So the model does not
  capture that two requests get different archives.
- IEEE floating point: numbers are exact reals with one NaN. `float()` of a
  present value is the value itself, and `str()` is the `show` parameter.
- How `jsonify` renders timestamps, and which value Flask picks for a
  repeated query-string argument.
- Heights (`height_min_metres`, `height_max_metres`) are taken to be present
  in every row. A NULL height would make `float()` raise in the same way as
  a NULL aggregate, and the model does not capture that failure.
- A location name that holds a comma or a newline makes the export
  unreadable as CSV, because nothing is quoted. The round-trip lemmas
  therefore require clean values.
- Database errors. `limit` and `offset` are pasted into the statement
  unchecked (raw_sql_provider.py lines 20-23), so a value that is not a
  number makes invalid SQL, and the route then answers 500. Both
  thermal-regime statements end in `; ` (location_of_observations_view.py
  line 278, raw_sql_provider.py line 103), so there any `limit` or `offset`,
  numeric or not, gives `...; LIMIT v`, which is not one valid statement.
  The model builds that text exactly, but the `db` parameter answers every
  query, so the model does not capture those failures.
- Path resolution. Files and archives are keyed by the path string, which
  is never resolved. The operating system resolves `.` and `..` segments
  and repeated `/`, so a location name holding them can reach a file the
  model treats as a different one. For example, `../download_observation_temperature_height/X`
  in a POST body overwrites that folder's `X.txt`, while `FilesWritten` says
  it is unchanged. Likewise `A` and `./A` write one real file, but two in the
  model. The model does not capture such aliasing, nor names that leave
  the folder.
- Concurrent requests. Two GET downloads of the same location share one file
  path (download_observation_view.py line 28), so one can send a file that
  the other is rewriting. The model runs one request at a time.
- The text of an echoed body. An object body with a repeated key is echoed
  as sent. `json.dumps` of the parsed dict would show that key once, with
  its last value. Iteration over the body is modelled on the parsed dict
  (`DictKeys`).
