/** `filename_exists` (src/usaxs/utils/check_file_exists.py): whether a file
    exists, where on request a name that differs only in letter case counts.
    The file system is a value: the set of paths that exist and the listing
    of each directory. */
module FileExists {
  import opened Wrappers
  import opened Text

  datatype FileSystem = FileSystem(paths: set<string>, listing: map<string, seq<string>>)

  /** Position just after the last "/" of `p`, or 0. */
  function AfterLastSlash(p: string): (i: nat)
    ensures i <= |p|
    ensures i > 0 ==> p[i - 1] == '/'
    ensures forall j :: i <= j < |p| ==> p[j] != '/'
  {
    if p == [] || p[|p| - 1] == '/' then |p| else AfterLastSlash(p[..|p| - 1])
  }

  /** `head.rstrip("/")`. */
  function RStripSlashes(s: string): (r: string)
    ensures |r| <= |s| && r == s[..|r|]
    ensures r == [] || r[|r| - 1] != '/'
  {
    if s != [] && s[|s| - 1] == '/' then RStripSlashes(s[..|s| - 1]) else s
  }

  predicate AllSlashes(s: string) {
    forall j :: 0 <= j < |s| ==> s[j] == '/'
  }

  /** `os.path.split(p)`: everything after the last "/" is the name; the rest,
      without trailing slashes unless it is nothing but slashes, is the
      directory. */
  function PathSplit(p: string): (parts: (string, string))
    ensures '/' !in parts.1
  {
    var i := AfterLastSlash(p);
    var head := p[..i];
    assert forall j :: 0 <= j < |p[i..]| ==> p[i..][j] != '/';
    (if head != [] && !AllSlashes(head) then RStripSlashes(head) else head, p[i..])
  }

  /** The directory searched: the directory part, or "." when it is empty. */
  function DirectoryOf(fname: string): string {
    var dir := PathSplit(fname).0;
    if dir == "" then "." else dir
  }

  /** Some listed item equals the name ignoring case. */
  predicate CaseMatch(items: seq<string>, name: string) {
    exists j :: 0 <= j < |items| && Lower(items[j]) == Lower(name)
  }

  /** The answer `filename_exists(fname, case_insensitive)` gives: true
      for an existing path; otherwise, when case is ignored, whether the
      directory part exists and lists a name equal to the file name up to
      case.  A missing directory gives false, and a directory part that
      exists but is not a directory makes `os.listdir` raise
      NotADirectoryError. */
  function FilenameExistsSpec(fs: FileSystem, fname: string, caseInsensitive: bool): (r: Result<bool>)
    ensures fname in fs.paths ==> r == Ok(true)
    ensures fname !in fs.paths && !caseInsensitive ==> r == Ok(false)
    ensures fname !in fs.paths && caseInsensitive ==>
      var path := DirectoryOf(fname);
      && (r == Ok(true) <==> path in fs.paths && path in fs.listing && CaseMatch(fs.listing[path], PathSplit(fname).1))
      && (path !in fs.paths ==> r == Ok(false))
    ensures r.Err? <==> fname !in fs.paths && caseInsensitive && DirectoryOf(fname) in fs.paths && DirectoryOf(fname) !in fs.listing
    ensures r.Err? ==> r.error == NotADirectoryError(DirectoryOf(fname))
  {
    if fname in fs.paths then Ok(true)
    else if !caseInsensitive then Ok(false)
    else
      var path := DirectoryOf(fname);
      if path !in fs.paths then Ok(false)
      else if path !in fs.listing then Err(NotADirectoryError(path))
      else Ok(CaseMatch(fs.listing[path], PathSplit(fname).1))
  }

  /** `filename_exists`: the listing is searched item by item and the search
      stops at the first match. */
  method FilenameExists(fs: FileSystem, fname: string, caseInsensitive: bool) returns (r: Result<bool>)
    ensures r == FilenameExistsSpec(fs, fname, caseInsensitive)
  {
    if fname in fs.paths {
      return Ok(true);
    }
    if !caseInsensitive {
      return Ok(false);
    }
    var filename := PathSplit(fname).1;
    var path := DirectoryOf(fname);
    if path !in fs.paths {
      return Ok(false);
    }
    if path !in fs.listing {
      return Err(NotADirectoryError(path));
    }
    var fnLower := Lower(filename);
    var items := fs.listing[path];
    var i := 0;
    while i < |items|
      invariant 0 <= i <= |items|
      invariant forall j :: 0 <= j < i ==> Lower(items[j]) != fnLower
    {
      if fnLower == Lower(items[i]) {
        assert Lower(items[i]) == Lower(filename);
        return Ok(true);
      }
      i := i + 1;
    }
    return Ok(false);
  }

  /** Splitting `dir + "/" + name` gives back `dir` and `name` when the name
      has no slash and the directory is non-empty and does not end in one. */
  lemma PathSplitJoin(dir: string, name: string)
    requires '/' !in name && dir != [] && dir[|dir| - 1] != '/'
    ensures PathSplit(dir + "/" + name) == (dir, name)
  {
    var p := dir + "/" + name;
    var i := AfterLastSlash(p);
    assert p[|dir|] == '/';
    assert p[..i] == dir + "/";
    assert p[i..] == name;
    assert !AllSlashes(p[..i]) by {
      assert p[..i][|dir| - 1] == dir[|dir| - 1];
    }
    assert RStripSlashes(dir + "/") == RStripSlashes(dir) by {
      assert (dir + "/")[..|dir|] == dir;
    }
  }

  /** A file stored under a different letter case is found in its directory
      when the lookup ignores case, and not found when it does not. */
  lemma CaseVariantFound(fs: FileSystem, dir: string, name: string, stored: string)
    requires '/' !in name && dir != [] && dir[|dir| - 1] != '/'
    requires dir in fs.paths && dir in fs.listing && stored in fs.listing[dir]
    requires Lower(stored) == Lower(name)
    requires dir + "/" + name !in fs.paths
    ensures FilenameExistsSpec(fs, dir + "/" + name, true) == Ok(true)
    ensures FilenameExistsSpec(fs, dir + "/" + name, false) == Ok(false)
  {
    PathSplitJoin(dir, name);
    var j :| 0 <= j < |fs.listing[dir]| && fs.listing[dir][j] == stored;
    assert Lower(fs.listing[dir][j]) == Lower(name);
  }
}
