/**
 * The download routes: each writes the CSV export of one location into a
 * text file under a fixed folder and sends it back; the POST route writes one
 * file per location named in the body and sends them back in one zip archive.
 */
module DownloadObservationView {
  import opened Values
  import opened Records
  import opened Files
  import opened RawSqlProvider

  const TimeTemperatureFolder := "download_observation_time_temperature"
  const TemperatureHeightFolder := "download_observation_temperature_height"
  /** The name the client sees for the archive, whatever its path on the server. */
  const ArchiveAttachmentName := "observations.zip"

  /** `if location:`: the argument is present and not the empty string. */
  predicate Given(arg: Option<string>)
  {
    arg.Some? && arg.value != ""
  }

  /** The folders after `if not os.path.exists(folder): os.makedirs(folder)`. */
  function FoldersWith(folders: set<string>, alreadyThere: bool, folder: string): (r: set<string>)
    ensures folder in r || alreadyThere
    ensures folders <= r && r - folders <= {folder}
    ensures alreadyThere ==> r == folders
  {
    if alreadyThere then folders else folders + {folder}
  }

  lemma FoldersArePlain()
    ensures PlainFolder(TimeTemperatureFolder) && PlainFolder(TemperatureHeightFolder)
  {
  }

  /** Makes the folder unless something already exists at its path. */
  method EnsureFolder(fs: FileSystem, folder: string)
    modifies fs
    ensures fs.folders == FoldersWith(old(fs.folders), old(fs.Exists(folder)), folder)
    ensures fs.files == old(fs.files) && fs.archives == old(fs.archives)
  {
    if !fs.Exists(folder) {
      fs.MakeDirs(folder);
    }
  }

  /** The export of one location that the time-temperature downloads write. */
  function TimeTemperatureExport(location: string, args: map<string, string>,
                                 db: Query -> seq<TimeTemperatureRecord>, show: Scalar -> string): (text: string)
    ensures TimeTemperatureHeader + "\n" <= text
  {
    TimeTemperatureCsv(db(TimeTemperatureFileQuery(location, Arg(args, "limit"), Arg(args, "offset"))), show)
  }

  /**
   * `GET /download_observation_time_temperature`: without a location it
   * answers 404 with an empty list and touches nothing; otherwise it writes the
   * location's export to `<folder>/<location>.txt` and sends that file.
   */
  method DownloadObservationTimeTemperature(
    fs: FileSystem, args: map<string, string>,
    db: Query -> seq<TimeTemperatureRecord>, show: Scalar -> string)
    returns (resp: Response)
    modifies fs
    ensures !Given(Arg(args, "location")) ==> resp == Echo(404, JArray([])) && unchanged(fs)
    ensures Given(Arg(args, "location")) ==>
      var location := args["location"];
      var path := TextFilePath(TimeTemperatureFolder, location);
      && resp == SendFile(path, None)
      && fs.folders == FoldersWith(old(fs.folders), old(fs.Exists(TimeTemperatureFolder)), TimeTemperatureFolder)
      && fs.files == old(fs.files)[path := TimeTemperatureExport(location, args, db, show)]
      && fs.archives == old(fs.archives)
  {
    var location := Arg(args, "location");
    if !Given(location) {
      return Echo(404, JArray([]));
    }
    EnsureFolder(fs, TimeTemperatureFolder);
    var path := TextFilePath(TimeTemperatureFolder, location.value);
    WriteObservationTimeTemperatureIntoFile(fs, path, location.value, Arg(args, "limit"), Arg(args, "offset"), db, show);
    resp := SendFile(path, None);
  }

  /**
   * `GET /download_observation_temperature_height`: as the time-temperature
   * download, with the thermal-regime export for the requested date range.
   */
  method DownloadObservationTemperatureHeight(
    fs: FileSystem, args: map<string, string>,
    db: Query -> seq<ThermalRegimeRecord>, show: Scalar -> string)
    returns (resp: Response)
    modifies fs
    ensures !Given(Arg(args, "location")) ==> resp == Echo(404, JArray([])) && unchanged(fs)
    ensures Given(Arg(args, "location")) ==>
      var location := args["location"];
      var path := TextFilePath(TemperatureHeightFolder, location);
      var query := TemperatureHeightFileQuery(location, Arg(args, "start_date"), Arg(args, "end_date"),
                                              Arg(args, "limit"), Arg(args, "offset"));
      && resp == SendFile(path, None)
      && fs.folders == FoldersWith(old(fs.folders), old(fs.Exists(TemperatureHeightFolder)), TemperatureHeightFolder)
      && fs.files == old(fs.files)[path := TemperatureHeightCsv(db(query), show)]
      && fs.archives == old(fs.archives)
  {
    var location := Arg(args, "location");
    if !Given(location) {
      return Echo(404, JArray([]));
    }
    EnsureFolder(fs, TemperatureHeightFolder);
    var path := TextFilePath(TemperatureHeightFolder, location.value);
    WriteObservationTemperatureHeightIntoFile(fs, path, location.value, Arg(args, "start_date"), Arg(args, "end_date"),
                                              Arg(args, "limit"), Arg(args, "offset"), db, show);
    resp := SendFile(path, None);
  }

  /** Every element of the body is a string. */
  predicate AllStrings(elems: seq<Json>)
  {
    forall i :: 0 <= i < |elems| ==> elems[i].JStr?
  }

  /** The strings of a body whose elements are all strings. */
  function Names(elems: seq<Json>): (names: seq<string>)
    requires AllStrings(elems)
    ensures |names| == |elems|
    ensures forall i :: 0 <= i < |elems| ==> elems[i] == JStr(names[i])
  {
    seq(|elems|, i requires 0 <= i < |elems| => elems[i].s)
  }

  /**
   * The validation loop of the POST route: stops at the first element that is
   * not a string, and otherwise yields the location names in order.
   */
  method LocationNames(elems: seq<Json>) returns (names: Option<seq<string>>)
    ensures names.Some? <==> AllStrings(elems)
    ensures names.Some? ==> names.value == Names(elems)
  {
    var acc: seq<string> := [];
    for i := 0 to |elems|
      invariant |acc| == i
      invariant forall j :: 0 <= j < i ==> elems[j] == JStr(acc[j])
    {
      if !elems[i].JStr? {
        return None;
      }
      acc := acc + [elems[i].s];
    }
    names := Some(acc);
  }

  /** The paths of the text files written for the given names. */
  function WrittenPaths(folder: string, names: seq<string>): set<string>
  {
    set j | 0 <= j < |names| :: TextFilePath(folder, names[j])
  }

  /** The export function of the POST route: every location is exported with the same arguments. */
  function ExportOf(args: map<string, string>, db: Query -> seq<TimeTemperatureRecord>,
                    show: Scalar -> string): string -> string
  {
    location => TimeTemperatureExport(location, args, db, show)
  }

  /** The archive's members, in body order: each name's file with its export. */
  function ArchiveEntries(names: seq<string>, exporter: string -> string): (r: seq<(string, string)>)
    ensures |r| == |names|
    ensures forall i :: 0 <= i < |names| ==> r[i] == (TextFilePath(TimeTemperatureFolder, names[i]), exporter(names[i]))
  {
    seq(|names|, i requires 0 <= i < |names| => (TextFilePath(TimeTemperatureFolder, names[i]), exporter(names[i])))
  }

  /**
   * `POST /download_observations_time_temperature`: a falsy body is echoed
   * with 404, a body without a length fails, a body with a non-string element
   * is echoed with 400, all three without touching the file system. Otherwise
   * every named location's export is written to its text file, each file is
   * added to a new archive `<folder>/<id>.zip` in body order, and the archive
   * is sent as `observations.zip`. No other file changes.
   */
  method DownloadObservationTimeTemperatures(
    fs: FileSystem, args: map<string, string>, body: Json, id: string,
    db: Query -> seq<TimeTemperatureRecord>, show: Scalar -> string)
    returns (resp: Response)
    modifies fs
    ensures !Truthy(body) ==> resp == Echo(404, body) && unchanged(fs)
    ensures Truthy(body) && Elements(body).None? ==> resp == ServerError && unchanged(fs)
    ensures Truthy(body) && Elements(body).Some? && !AllStrings(Elements(body).value) ==>
      resp == Echo(400, body) && unchanged(fs)
    ensures Truthy(body) && Elements(body).Some? && AllStrings(Elements(body).value) ==>
      var names := Names(Elements(body).value);
      var folder := TimeTemperatureFolder;
      var zipPath := PathJoin(folder, id + ".zip");
      && resp == SendFile(zipPath, Some(ArchiveAttachmentName))
      && fs.folders == FoldersWith(old(fs.folders), old(fs.Exists(folder)), folder)
      && fs.archives == old(fs.archives)[zipPath := ArchiveEntries(names, ExportOf(args, db, show))]
      && FilesWritten(old(fs.files), fs.files, names, ExportOf(args, db, show))
  {
    if !Truthy(body) {
      return Echo(404, body);
    }
    var elems := Elements(body);
    if elems.None? {
      // `len()` of a number or a boolean raises
      return ServerError;
    }
    var names := LocationNames(elems.value);
    if names.None? {
      return Echo(400, body);
    }
    var locations := names.value;
    var folder := TimeTemperatureFolder;
    EnsureFolder(fs, folder);
    var zipPath := PathJoin(folder, id + ".zip");
    fs.CreateArchive(zipPath);
    ArchiveAll(fs, zipPath, locations, old(fs.archives), args, db, show);
    resp := SendFile(zipPath, Some(ArchiveAttachmentName));
  }

  /**
   * The `with ZipFile(zip_path, 'w')` block: writes each location's export to
   * its text file and appends that file to the open archive, in order.
   */
  method ArchiveAll(
    fs: FileSystem, zipPath: string, locations: seq<string>, ghost archives0: map<string, seq<(string, string)>>,
    args: map<string, string>, db: Query -> seq<TimeTemperatureRecord>, show: Scalar -> string)
    requires fs.archives == archives0[zipPath := []]
    modifies fs
    ensures fs.folders == old(fs.folders)
    ensures fs.archives == archives0[zipPath := ArchiveEntries(locations, ExportOf(args, db, show))]
    ensures FilesWritten(old(fs.files), fs.files, locations, ExportOf(args, db, show))
  {
    ghost var exporter := ExportOf(args, db, show);
    for i := 0 to |locations|
      invariant fs.folders == old(fs.folders)
      invariant fs.archives == archives0[zipPath := ArchiveEntries(locations[..i], exporter)]
      invariant FilesWritten(old(fs.files), fs.files, locations[..i], exporter)
    {
      ghost var files := fs.files;
      WriteOne(fs, locations, i, args, db, show);
      FilesWrittenSnoc(old(fs.files), files, locations, i, exporter);
      AppendOne(fs, zipPath, locations, i, archives0, exporter);
    }
    assert locations[..|locations|] == locations;
  }

  /** The next location's export is written to its text file. */
  method WriteOne(
    fs: FileSystem, locations: seq<string>, i: nat,
    args: map<string, string>, db: Query -> seq<TimeTemperatureRecord>, show: Scalar -> string)
    requires i < |locations|
    modifies fs
    ensures fs.folders == old(fs.folders) && fs.archives == old(fs.archives)
    ensures fs.files == old(fs.files)[TextFilePath(TimeTemperatureFolder, locations[i]) := ExportOf(args, db, show)(locations[i])]
  {
    var path := TextFilePath(TimeTemperatureFolder, locations[i]);
    WriteObservationTimeTemperatureIntoFile(fs, path, locations[i], Arg(args, "limit"), Arg(args, "offset"), db, show);
  }

  /** The next location's file, already written, is appended to the open archive. */
  method AppendOne(
    fs: FileSystem, zipPath: string, locations: seq<string>, i: nat,
    ghost archives0: map<string, seq<(string, string)>>, ghost exporter: string -> string)
    requires i < |locations|
    requires fs.archives == archives0[zipPath := ArchiveEntries(locations[..i], exporter)]
    requires TextFilePath(TimeTemperatureFolder, locations[i]) in fs.files
    requires fs.files[TextFilePath(TimeTemperatureFolder, locations[i])] == exporter(locations[i])
    modifies fs
    ensures fs.folders == old(fs.folders) && fs.files == old(fs.files)
    ensures fs.archives == archives0[zipPath := ArchiveEntries(locations[..i + 1], exporter)]
  {
    var path := TextFilePath(TimeTemperatureFolder, locations[i]);
    ghost var entries := ArchiveEntries(locations[..i], exporter);
    fs.AddToArchive(zipPath, path);
    ArchiveEntriesSnoc(locations, i, exporter);
    assert fs.archives == archives0[zipPath := entries][zipPath := entries + [(path, exporter(locations[i]))]];
  }

  /** The files present are the ones before and the ones written for the names. */
  ghost predicate KeysWritten(files0: map<string, string>, files: map<string, string>, names: seq<string>)
  {
    files.Keys == files0.Keys + WrittenPaths(TimeTemperatureFolder, names)
  }

  /** Each name's file holds the export of that name. */
  ghost predicate ContentsWritten(files: map<string, string>, names: seq<string>, exporter: string -> string)
  {
    forall j :: 0 <= j < |names| ==>
      TextFilePath(TimeTemperatureFolder, names[j]) in files &&
      files[TextFilePath(TimeTemperatureFolder, names[j])] == exporter(names[j])
  }

  /** Every file not written for a name is as it was. */
  ghost predicate OthersKept(files0: map<string, string>, files: map<string, string>, names: seq<string>)
  {
    forall p :: p in files0 && p !in WrittenPaths(TimeTemperatureFolder, names) ==> p in files && files[p] == files0[p]
  }

  /**
   * Starting from `files0`, each name's file holds its export, and every
   * other file is as it was.
   */
  ghost predicate FilesWritten(files0: map<string, string>, files: map<string, string>, names: seq<string>,
                               exporter: string -> string)
  {
    KeysWritten(files0, files, names) && ContentsWritten(files, names, exporter) && OthersKept(files0, files, names)
  }

  /** Writing the next name's file adds exactly its path. */
  lemma KeysWrittenSnoc(files0: map<string, string>, files: map<string, string>, names: seq<string>, i: nat, text: string)
    requires i < |names|
    requires KeysWritten(files0, files, names[..i])
    ensures KeysWritten(files0, files[TextFilePath(TimeTemperatureFolder, names[i]) := text], names[..i + 1])
  {
    WrittenPathsSnoc(TimeTemperatureFolder, names, i);
  }

  /**
   * Writing the next name's file keeps every earlier name's file correct: an
   * earlier name has another path unless it is the same name.
   */
  lemma ContentsWrittenSnoc(files: map<string, string>, names: seq<string>, i: nat, exporter: string -> string)
    requires i < |names|
    requires ContentsWritten(files, names[..i], exporter)
    ensures ContentsWritten(files[TextFilePath(TimeTemperatureFolder, names[i]) := exporter(names[i])], names[..i + 1], exporter)
  {
    var folder := TimeTemperatureFolder;
    var after := files[TextFilePath(folder, names[i]) := exporter(names[i])];
    var before, nexts := names[..i], names[..i + 1];
    FoldersArePlain();
    forall j | 0 <= j < |nexts|
      ensures TextFilePath(folder, nexts[j]) in after
      ensures after[TextFilePath(folder, nexts[j])] == exporter(nexts[j])
    {
      assert nexts[j] == names[j];
      TextFilePathInjective(folder, names[j], names[i]);
      if names[j] != names[i] {
        assert before[j] == names[j];
      }
    }
  }

  /** Writing the next name's file leaves every file outside the written paths alone. */
  lemma OthersKeptSnoc(files0: map<string, string>, files: map<string, string>, names: seq<string>, i: nat, text: string)
    requires i < |names|
    requires OthersKept(files0, files, names[..i])
    ensures OthersKept(files0, files[TextFilePath(TimeTemperatureFolder, names[i]) := text], names[..i + 1])
  {
    WrittenPathsSnoc(TimeTemperatureFolder, names, i);
  }

  /** Writing the next name's file extends what has been written by that one name. */
  lemma FilesWrittenSnoc(files0: map<string, string>, files: map<string, string>, names: seq<string>, i: nat,
                         exporter: string -> string)
    requires i < |names|
    requires FilesWritten(files0, files, names[..i], exporter)
    ensures FilesWritten(files0, files[TextFilePath(TimeTemperatureFolder, names[i]) := exporter(names[i])], names[..i + 1], exporter)
  {
    KeysWrittenSnoc(files0, files, names, i, exporter(names[i]));
    ContentsWrittenSnoc(files, names, i, exporter);
    OthersKeptSnoc(files0, files, names, i, exporter(names[i]));
  }
  lemma WrittenPathsSnoc(folder: string, names: seq<string>, i: nat)
    requires i < |names|
    ensures WrittenPaths(folder, names[..i + 1]) == WrittenPaths(folder, names[..i]) + {TextFilePath(folder, names[i])}
  {
    var before, after := names[..i], names[..i + 1];
    forall p | p in WrittenPaths(folder, after)
      ensures p in WrittenPaths(folder, before) + {TextFilePath(folder, names[i])}
    {
      var j :| 0 <= j < |after| && p == TextFilePath(folder, after[j]);
      if j < i {
        assert after[j] == before[j];
      }
    }
    forall p | p in WrittenPaths(folder, before)
      ensures p in WrittenPaths(folder, after)
    {
      var j :| 0 <= j < |before| && p == TextFilePath(folder, before[j]);
      assert before[j] == after[j];
    }
    assert TextFilePath(folder, after[i]) in WrittenPaths(folder, after);
  }

  lemma ArchiveEntriesSnoc(names: seq<string>, i: nat, exporter: string -> string)
    requires i < |names|
    ensures ArchiveEntries(names[..i + 1], exporter) ==
      ArchiveEntries(names[..i], exporter) + [(TextFilePath(TimeTemperatureFolder, names[i]), exporter(names[i]))]
  {
  }
}
