// Paths as `pathlib` sees them and a file system of directories and text
// files, shared by the modules that create folders and notes.

module FileTree {
  import opened Wrappers
  import Text

  /** A path as its parts: "/" first for an absolute path, then its names. */
  type Path = seq<string>

  /** The non-empty, non-"." pieces of a path, as `pathlib` keeps them. */
  function Names(pieces: seq<string>): (ns: seq<string>)
    ensures forall i :: 0 <= i < |ns| ==> ns[i] != "" && ns[i] != "."
  {
    if pieces == [] then []
    else
      var rest := Names(pieces[1..]);
      if pieces[0] == "" || pieces[0] == "." then rest else [pieces[0]] + rest
  }

  /** `pathlib.PurePosixPath(p).parts`.  A leading "//" (which POSIX keeps
      apart) and ".." (which is kept as a name) are not special here. */
  function Parts(p: string): (parts: Path)
    ensures forall i :: 0 <= i < |parts| ==> parts[i] != ""
    ensures |p| > 0 && p[0] == '/' ==> Absolute(parts)
  {
    (if |p| > 0 && p[0] == '/' then ["/"] else []) + Names(Text.Split(p, '/'))
  }

  predicate Absolute(p: Path) { |p| > 0 && p[0] == "/" }

  /** `a / b`: an absolute `b` replaces `a`, a relative one is appended. */
  function Child(a: Path, b: string): (r: Path)
    ensures Absolute(a) ==> Absolute(r)
  {
    var bp := Parts(b);
    if Absolute(bp) then bp else a + bp
  }

  /** `path.name`: the last name, "" for the root or an empty path. */
  function Name(p: Path): string
  {
    if p == [] || p == ["/"] then "" else p[|p| - 1]
  }

  /** `str(path)`. */
  function PathString(p: Path): string
  {
    if p == [] then "."
    else if p[0] == "/" then "/" + Text.Join("/", p[1..])
    else Text.Join("/", p)
  }

  /** The path and every directory above it. */
  function Ancestors(p: Path): (a: set<Path>)
    ensures forall k :: 1 <= k <= |p| ==> p[..k] in a
    ensures forall q :: q in a ==> 1 <= |q| <= |p| && q == p[..|q|]
  {
    set k | 1 <= k <= |p| :: p[..k]
  }

  /** A file on the way down to `p`, if there is one. */
  predicate BlockedIn(files: map<Path, string>, p: Path)
  {
    exists k :: 1 <= k < |p| && p[..k] in files
  }

  /** `mkdir(parents=True, exist_ok=True)` of `p` succeeds. */
  predicate CanMake(files: map<Path, string>, p: Path)
  {
    !BlockedIn(files, p) && p !in files
  }

  /** A file system: directories, and files with their text. */
  class FileSystem {
    var dirs: set<Path>
    var files: map<Path, string>

    /** Nothing is both a directory and a file. */
    predicate Valid()
      reads this
    {
      forall p :: p in dirs ==> p !in files
    }

    constructor(dirs: set<Path>, files: map<Path, string>)
      requires forall p :: p in dirs ==> p !in files
      ensures Valid() && this.dirs == dirs && this.files == files
    {
      this.dirs := dirs;
      this.files := files;
    }

    predicate Exists(p: Path)
      reads this
    {
      p in dirs || p in files
    }

    predicate Blocked(p: Path)
      reads this
    {
      BlockedIn(files, p)
    }

    /** `p.mkdir(parents=True, exist_ok=existOk)`: a file in the way raises,
        an existing directory raises unless `existOk`; otherwise `p` and
        all the directories above it exist afterwards. */
    method MakeDirs(p: Path, existOk: bool) returns (r: Option<Error>)
      requires Valid()
      modifies this
      ensures Valid() && files == old(files)
      ensures r.None? <==> !Blocked(p) && p !in old(files) && (existOk || p !in old(dirs))
      ensures r.None? ==> dirs == old(dirs) + Ancestors(p)
      ensures r.Some? ==> dirs == old(dirs)
      ensures old(Blocked(p)) ==> r == Some(NotADirectoryError(PathString(p)))
    {
      if Blocked(p) {
        return Some(NotADirectoryError(PathString(p)));
      }
      if p in files || (!existOk && p in dirs) {
        return Some(FileExistsError(PathString(p)));
      }
      assert forall q :: q in Ancestors(p) ==> q !in files by {
        forall q | q in Ancestors(p)
          ensures q !in files
        {
          if |q| < |p| {
            assert !(1 <= |q| < |p| && p[..|q|] in files);
          } else {
            assert q == p;
          }
        }
      }
      dirs := dirs + Ancestors(p);
      return None;
    }

    /** `open(p, "w").write(text)`: the file holds `text` afterwards, unless
        opening fails. */
    method WriteFile(p: Path, text: string) returns (r: Option<Error>)
      requires Valid()
      modifies this
      ensures Valid() && dirs == old(dirs)
      ensures r == OpenFailure(old(dirs), old(files), p)
      ensures r.None? ==> files == old(files)[p := text]
      ensures r.Some? ==> files == old(files)
    {
      r := OpenFailure(dirs, files, p);
      if r.None? {
        files := files[p := text];
      }
    }

    /** `open(p, "a").write(text)`: a new file starts empty. */
    method AppendFile(p: Path, text: string) returns (r: Option<Error>)
      requires Valid()
      modifies this
      ensures Valid() && dirs == old(dirs)
      ensures r == OpenFailure(old(dirs), old(files), p)
      ensures r.None? ==> files == old(files)[p := (if p in old(files) then old(files)[p] else "") + text]
      ensures r.Some? ==> files == old(files)
    {
      r := OpenFailure(dirs, files, p);
      if r.None? {
        files := files[p := (if p in files then files[p] else "") + text];
      }
    }
  }

  /** What `open(p, "w")` or `open(p, "a")` raises: NotADirectoryError
      when a file lies on the way to `p`, FileNotFoundError when its
      directory does not exist, IsADirectoryError when `p` is a directory;
      nothing otherwise. */
  function OpenFailure(dirs: set<Path>, files: map<Path, string>, p: Path): (e: Option<Error>)
    ensures e.None? <==> !BlockedIn(files, p) && ParentIn(dirs, p) && p !in dirs
  {
    if BlockedIn(files, p) then Some(NotADirectoryError(PathString(p)))
    else if !ParentIn(dirs, p) then Some(FileNotFoundError(PathString(p)))
    else if p in dirs then Some(IsADirectoryError(PathString(p)))
    else None
  }

  /** The directory holding `p` exists: a single name lies in the working
      directory, which always exists. */
  predicate ParentIn(dirs: set<Path>, p: Path)
  {
    |p| <= 1 || p[..|p| - 1] in dirs
  }

  /** Whether a file lies on the way to `p` does not depend on `p` itself. */
  lemma BlockedIgnoresSelf(files: map<Path, string>, p: Path, text: string)
    ensures BlockedIn(files[p := text], p) == BlockedIn(files, p)
  {
    if BlockedIn(files[p := text], p) {
      var k :| 1 <= k < |p| && p[..k] in files[p := text];
      assert p[..k] != p;
    }
  }

  /** A file lies on the way to `p + [name]` exactly when `p` is a file or
      a file lies on the way to `p`. */
  lemma BlockedChild(files: map<Path, string>, p: Path, name: string)
    requires |p| >= 1
    ensures BlockedIn(files, p + [name]) <==> p in files || BlockedIn(files, p)
  {
    var c := p + [name];
    assert c[..|p|] == p;
    if BlockedIn(files, p) {
      var k :| 1 <= k < |p| && p[..k] in files;
      assert c[..k] == p[..k];
    }
    if BlockedIn(files, c) {
      var k :| 1 <= k < |c| && c[..k] in files;
      assert c[..k] == p[..k];
    }
  }

  /** Names contain no slash when the pieces had none. */
  lemma {:induction false} NamesNoSlash(pieces: seq<string>)
    requires forall i :: 0 <= i < |pieces| ==> '/' !in pieces[i]
    ensures forall i :: 0 <= i < |Names(pieces)| ==> '/' !in Names(pieces)[i]
  {
    if pieces != [] { NamesNoSlash(pieces[1..]); }
  }

  /** Names of names are the same names. */
  lemma {:induction false} NamesOfNames(pieces: seq<string>)
    requires forall i :: 0 <= i < |pieces| ==> pieces[i] != "" && pieces[i] != "."
    ensures Names(pieces) == pieces
  {
    if pieces != [] { NamesOfNames(pieces[1..]); }
  }

  /** Every part of a parsed path is "/" (first only) or a slash-free name. */
  lemma PartsShape(s: string)
    ensures var p := Parts(s);
      (forall i :: 0 <= i < |p| ==> p[i] != "" && p[i] != ".") &&
      (forall i :: 0 <= i < |p| ==> p[i] == "/" || '/' !in p[i]) &&
      (forall i :: 1 <= i < |p| ==> '/' !in p[i]) &&
      (Absolute(p) <==> |s| > 0 && s[0] == '/')
  {
    NamesNoSlash(Text.Split(s, '/'));
  }

  /** Splitting "/" followed by slash-free names joined with "/" gives an
      empty first piece and then the names. */
  lemma SplitRooted(names: seq<string>)
    requires names != [] && forall i :: 0 <= i < |names| ==> '/' !in names[i]
    ensures Text.Split("/" + Text.Join("/", names), '/') == [""] + names
  {
    var all := [""] + names;
    assert all[1..] == names;
    assert Text.Join("/", all) == "/" + Text.Join("/", names);
    Text.SplitJoin(all, '/');
  }

  /** Printing an absolute path of names and parsing it again gives it back. */
  lemma {:induction false} PartsOfPathString(p: Path)
    requires Absolute(p)
    requires forall i :: 1 <= i < |p| ==> '/' !in p[i] && p[i] != "" && p[i] != "."
    ensures Parts(PathString(p)) == p
  {
    if |p| == 1 {
      assert Text.Split("/", '/') == ["", ""];
      assert p == ["/"];
    } else {
      var names := p[1..];
      var s := "/" + Text.Join("/", names);
      assert PathString(p) == s;
      SplitRooted(names);
      assert ([""] + names)[1..] == names;
      NamesOfNames(names);
      assert ["/"] + names == p;
    }
  }
}
