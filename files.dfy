/**
 * The file system as the download routes see it: folders, text files and
 * zip archives, each known by its path, and POSIX path joining.
 */
module Files {

  /** `os.path.join(a, b)` on POSIX: an absolute `b` replaces `a`. */
  function PathJoin(a: string, b: string): (p: string)
    ensures |b| > 0 && b[0] == '/' ==> p == b
    ensures (|b| == 0 || b[0] != '/') && a != "" && a[|a| - 1] != '/' ==> p == a + "/" + b
    ensures b <= p || a <= p
  {
    if |b| > 0 && b[0] == '/' then b
    else if a == "" || a[|a| - 1] == '/' then a + b
    else a + "/" + b
  }

  /** A folder name that `PathJoin` extends with `/`: not empty, not absolute, no trailing `/`. */
  predicate PlainFolder(folder: string)
  {
    folder != "" && folder[0] != '/' && folder[|folder| - 1] != '/'
  }

  /** The path of the text file written for one location: `os.path.join(folder, name + '.txt')`. */
  function TextFilePath(folder: string, name: string): string
  {
    PathJoin(folder, name + ".txt")
  }

  /**
   * A relative name's file lies in the folder, while an absolute name
   * replaces the folder altogether.
   */
  lemma TextFilePathShape(folder: string, name: string)
    ensures PlainFolder(folder) && (|name| == 0 || name[0] != '/') ==> TextFilePath(folder, name) == folder + "/" + name + ".txt"
    ensures |name| > 0 && name[0] == '/' ==> TextFilePath(folder, name) == name + ".txt"
  {
    var file := name + ".txt";
    if |name| > 0 {
      assert file[0] == name[0];
    }
    assert folder + "/" + file == folder + "/" + name + ".txt";
  }

  /**
   * Location names and their file paths correspond one to one: a repeated
   * name reuses its path, and two different names never share one.
   */
  lemma TextFilePathInjective(folder: string, a: string, b: string)
    requires PlainFolder(folder)
    ensures TextFilePath(folder, a) == TextFilePath(folder, b) <==> a == b
  {
    var pa, pb := TextFilePath(folder, a), TextFilePath(folder, b);
    if pa == pb {
      var absA, absB := |a| > 0 && a[0] == '/', |b| > 0 && b[0] == '/';
      if absA && absB {
        assert a == pa[..|a|] && b == pb[..|b|];
      } else if !absA && !absB {
        var n := |folder| + 1;
        assert a == pa[n..n + |a|] && b == pb[n..n + |b|];
      }
    }
  }

  /** The files the server writes, as a flat store of paths. */
  class FileSystem {
    var folders: set<string>
    var files: map<string, string>
    /** Each archive's members, in the order they were added, with the content each had then. */
    var archives: map<string, seq<(string, string)>>

    constructor ()
      ensures folders == {} && files == map[] && archives == map[]
    {
      folders, files, archives := {}, map[], map[];
    }

    /** `os.path.exists(path)`. */
    predicate Exists(path: string)
      reads this
    {
      path in folders || path in files || path in archives
    }

    /** `os.makedirs(path)`. */
    method MakeDirs(path: string)
      modifies this
      ensures folders == old(folders) + {path}
      ensures files == old(files) && archives == old(archives)
    {
      folders := folders + {path};
    }

    /** `open(path, 'w')`: creates the file, or truncates it. */
    method OpenForWrite(path: string)
      modifies this
      ensures files == old(files)[path := ""]
      ensures folders == old(folders) && archives == old(archives)
    {
      files := files[path := ""];
    }

    /** `f.write(text)` on a file opened for writing. */
    method Write(path: string, text: string)
      requires path in files
      modifies this
      ensures files == old(files)[path := old(files)[path] + text]
      ensures folders == old(folders) && archives == old(archives)
    {
      files := files[path := files[path] + text];
    }

    /** `ZipFile(path, 'w')`: a new, empty archive. */
    method CreateArchive(path: string)
      modifies this
      ensures archives == old(archives)[path := []]
      ensures folders == old(folders) && files == old(files)
    {
      archives := archives[path := []];
    }

    /** `newzip.write(member)`: appends the member file, with its current content. */
    method AddToArchive(path: string, member: string)
      requires path in archives && member in files
      modifies this
      ensures archives == old(archives)[path := old(archives)[path] + [(member, old(files)[member])]]
      ensures folders == old(folders) && files == old(files)
    {
      archives := archives[path := archives[path] + [(member, files[member])]];
    }
  }
}
