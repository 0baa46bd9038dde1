// The user data directory and the per-technique subdirectory below the
// sample folder (`get_data_dir`, `techniqueSubdirectory`).

module DataDirs {
  import opened Wrappers
  import Text
  import opened FileTree

  /** `s.replace("  ", "_")`: each pair of spaces, taken from the left and
      without overlap, becomes one underscore. */
  function ReplaceDoubleSpaces(s: string): (r: string)
    ensures |r| <= |s|
  {
    if |s| >= 2 && s[0] == ' ' && s[1] == ' ' then "_" + ReplaceDoubleSpaces(s[2..])
    else if s == [] then []
    else [s[0]] + ReplaceDoubleSpaces(s[1..])
  }

  predicate HasDoubleSpace(s: string)
  {
    exists i :: 0 <= i < |s| - 1 && s[i] == ' ' && s[i + 1] == ' '
  }

  /** Text without a double space is kept as it is: single spaces stay. */
  lemma {:induction false} ReplaceKeepsSingleSpaces(s: string)
    requires !HasDoubleSpace(s)
    ensures ReplaceDoubleSpaces(s) == s
  {
    if s != [] {
      ReplaceKeepsSingleSpaces(s[1..]);
      assert [s[0]] + s[1..] == s;
    }
  }

  /** No double space survives, and nothing but pairs of spaces changes: the
      result has no character the input lacked except '_'. */
  lemma {:induction false} ReplaceRemovesDoubleSpaces(s: string)
    ensures !HasDoubleSpace(ReplaceDoubleSpaces(s))
    ensures forall c :: c in ReplaceDoubleSpaces(s) ==> c == '_' || c in s
  {
    if |s| >= 2 && s[0] == ' ' && s[1] == ' ' {
      ReplaceRemovesDoubleSpaces(s[2..]);
      var r := ReplaceDoubleSpaces(s[2..]);
      assert ReplaceDoubleSpaces(s) == "_" + r;
      NoDoubleAfterPrefix('_', r);
    } else if s != [] {
      ReplaceRemovesDoubleSpaces(s[1..]);
      var r := ReplaceDoubleSpaces(s[1..]);
      assert ReplaceDoubleSpaces(s) == [s[0]] + r;
      if s[0] == ' ' && r != [] {
        assert s[1] != ' ';
        assert r[0] == s[1] by { FirstKept(s[1..]); }
      }
      NoDoubleAfterPrefix(s[0], r);
    }
  }

  /** The first character of text not starting with a space is kept. */
  lemma FirstKept(s: string)
    requires s != [] && s[0] != ' '
    ensures ReplaceDoubleSpaces(s) != [] && ReplaceDoubleSpaces(s)[0] == s[0]
  {
  }

  lemma NoDoubleAfterPrefix(c: char, r: string)
    requires !HasDoubleSpace(r)
    requires c == ' ' && r != [] ==> r[0] != ' '
    ensures !HasDoubleSpace([c] + r)
  {
    var t := [c] + r;
    forall i | 0 <= i < |t| - 1 && t[i] == ' '
      ensures t[i + 1] != ' '
    {
      if i > 0 {
        assert t[i] == r[i - 1] && t[i + 1] == r[i];
      }
    }
  }

  /** The sample folder name: the stripped `sample_dir`, "sample" when that
      is empty, with double spaces replaced. */
  function SampleFolder(sampleDir: string): (f: string)
    ensures f != [] && !HasDoubleSpace(f)
  {
    var stripped := Text.Strip(sampleDir);
    var name := if stripped == "" then "sample" else stripped;
    ReplaceRemovesDoubleSpaces(name);
    var f := ReplaceDoubleSpaces(name);
    assert f != [] by {
      if |name| >= 2 && name[0] == ' ' && name[1] == ' ' {
      } else {
        assert name != [];
      }
    }
    f
  }

  /** `Path.resolve()`, without symbolic links or "..": a relative path is
      taken from the working directory. */
  function Resolve(p: Path, cwd: Path): (r: Path)
  {
    if Absolute(p) then p else cwd + p
  }

  /** `get_data_dir`'s text: `str(Path(user_dir))`. */
  function DataDirText(userDir: string): string
  {
    PathString(Parts(userDir))
  }

  /** The sample directory `Path(data_path) / sampleFolder`. */
  function SamplePath(userDir: string, sampleDir: string): Path
  {
    Child(Parts(DataDirText(userDir)), SampleFolder(sampleDir))
  }

  /** The technique directory `<sample dir>/<its name>_<technique>`. */
  function TechniquePath(userDir: string, sampleDir: string, technique: string): Path
  {
    var sample := SamplePath(userDir, sampleDir);
    Child(sample, Name(sample) + "_" + technique)
  }

  const NoUserDir: string := "Cannot find user directory: "

  /** `get_data_dir`: the user directory as text, which must exist. */
  function GetDataDir(dirs: set<Path>, files: map<Path, string>, userDir: string, cwd: Path): (r: Result<string>)
    ensures r.Ok? <==> (Resolve(Parts(userDir), cwd) in dirs || Resolve(Parts(userDir), cwd) in files)
    ensures r.Ok? ==> r.value == PathString(Parts(userDir))
    ensures r.Err? ==> r.error.FileNotFoundError?
  {
    var p := Parts(userDir);
    if Resolve(p, cwd) in dirs || Resolve(p, cwd) in files then Ok(PathString(p))
    else Err(FileNotFoundError(NoUserDir + PathString(p)))
  }

  /** When `techniqueSubdirectory` succeeds on a file system: the user
      directory exists and no file stands where either directory goes. */
  predicate CanCreate(dirs: set<Path>, files: map<Path, string>, userDir: string, sampleDir: string,
                      technique: string, cwd: Path)
  {
    GetDataDir(dirs, files, userDir, cwd).Ok? &&
    CanMake(files, Resolve(SamplePath(userDir, sampleDir), cwd)) &&
    CanMake(files, Resolve(TechniquePath(userDir, sampleDir, technique), cwd))
  }

  /** `techniqueSubdirectory(technique)`, given the user directory and sample
      folder read from EPICS and the working directory: both directories
      exist afterwards and their resolved path is returned.  The path
      depends on the inputs only, and once it succeeded a second call with
      the same inputs succeeds again and creates nothing more. */
  method TechniqueSubdirectory(fs: FileSystem, userDir: string, sampleDir: string, technique: string, cwd: Path)
    returns (r: Result<string>)
    requires fs.Valid()
    modifies fs
    ensures fs.Valid() && fs.files == old(fs.files)
    ensures r.Ok? <==> CanCreate(old(fs.dirs), old(fs.files), userDir, sampleDir, technique, cwd)
    ensures r.Ok? ==> r.value == PathString(Resolve(TechniquePath(userDir, sampleDir, technique), cwd))
    ensures r.Ok? ==> fs.dirs == old(fs.dirs) + Ancestors(Resolve(SamplePath(userDir, sampleDir), cwd))
                                           + Ancestors(Resolve(TechniquePath(userDir, sampleDir, technique), cwd))
    ensures r.Ok? ==> CanCreate(fs.dirs, fs.files, userDir, sampleDir, technique, cwd)
    ensures !GetDataDir(old(fs.dirs), old(fs.files), userDir, cwd).Ok? ==>
      r == GetDataDir(old(fs.dirs), old(fs.files), userDir, cwd) && fs.dirs == old(fs.dirs)
  {
    var dataDir := GetDataDir(fs.dirs, fs.files, userDir, cwd);
    if dataDir.Err? {
      return Err(dataDir.error);
    }
    var folder := SampleFolder(sampleDir);
    var dataPath := Child(Parts(dataDir.value), folder);
    var e := fs.MakeDirs(Resolve(dataPath, cwd), true);
    if e.Some? {
      return Err(e.value);
    }
    var stub := Name(dataPath);
    var path := Child(dataPath, stub + "_" + technique);
    e := fs.MakeDirs(Resolve(path, cwd), true);
    if e.Some? {
      return Err(e.value);
    }
    ghost var u := Resolve(Parts(userDir), cwd);
    assert u in old(fs.dirs) || u in fs.files;
    return Ok(PathString(Resolve(path, cwd)));
  }

  /** A simple name is one path part. */
  lemma SimpleNameParts(n: string)
    requires n != "" && n != "." && '/' !in n
    ensures Parts(n) == [n]
  {
    Text.NoSplit(n, '/');
    assert [n][1..] == [];
    assert Names([n]) == [n] + Names([]);
    assert n[0] != '/' by { assert n[0] in n; }
    assert Parts(n) == [] + Names([n]);
  }

  /** For an absolute user directory of plain names and a plain sample
      folder and technique, the technique directory is
      `<user dir>/<sample>/<sample>_<technique>`. */
  lemma TechniquePathShape(userDir: string, sampleDir: string, technique: string)
    requires |userDir| > 0 && userDir[0] == '/'
    requires var f := SampleFolder(sampleDir); f != "." && '/' !in f
    requires '/' !in technique
    ensures var f := SampleFolder(sampleDir);
      TechniquePath(userDir, sampleDir, technique) == Parts(userDir) + [f, f + "_" + technique]
  {
    var f := SampleFolder(sampleDir);
    var p := Parts(userDir);
    PartsShape(userDir);
    PartsOfPathString(p);
    SimpleNameParts(f);
    assert SamplePath(userDir, sampleDir) == p + [f];
    assert Name(p + [f]) == f;
    var t := f + "_" + technique;
    assert '/' !in t;
    assert t != "." by { assert |t| >= 2; }
    SimpleNameParts(t);
  }
}
