// The append-only experiment notebook: a month folder under the notes
// vault, one markdown file per user directory, and appends to its end.

module Obsidian {
  import opened Wrappers
  import Text
  import opened FileTree

  const VaultBase: Path := ["/", "share1", "Obsidian", "Experiments"]
  const RecordsFolder: string := "Instrument_Records"

  /** `<vault>/<YYYY-MM>/Instrument_Records`, for the month the clock gives
      (`month` must be a plain name such as "2026-02"). */
  function MonthFolder(month: string): (p: Path)
    ensures |p| == |VaultBase| + 2 && p[..|VaultBase|] == VaultBase
    ensures p[|VaultBase|] == month && p[|VaultBase| + 1] == RecordsFolder
  {
    VaultBase + [month, RecordsFolder]
  }

  /** Whether a path string starts at the root. */
  predicate IsRooted(d: string)
  {
    |d| > 0 && d[0] == '/'
  }

  /** The form of the names `os.path.normpath` leaves: no empty name and no
      ".", and ".." only in a leading run, which only a relative path keeps. */
  predicate NormalNames(ns: seq<string>, rooted: bool)
  {
    && (forall i :: 0 <= i < |ns| ==> ns[i] != "" && ns[i] != ".")
    && (forall j :: 0 < j < |ns| && ns[j] == ".." ==> ns[j - 1] == "..")
    && (rooted ==> forall i :: 0 <= i < |ns| ==> ns[i] != "..")
  }

  /** One piece of `normpath`'s loop: an empty piece or "." is dropped; ".."
      removes the name before it unless there is none or that name is itself
      ".."; at the root a leading ".." is dropped, in a relative path kept. */
  function NormStep(acc: seq<string>, piece: string, rooted: bool): seq<string>
  {
    if piece == "" || piece == "." then acc
    else if piece != ".." || (!rooted && acc == []) || (acc != [] && acc[|acc| - 1] == "..") then acc + [piece]
    else if acc != [] then acc[..|acc| - 1]
    else acc
  }

  /** A step keeps the names in normal form and adds no name but its piece. */
  lemma NormStepKeeps(acc: seq<string>, piece: string, rooted: bool)
    ensures var ns := NormStep(acc, piece, rooted);
      && (NormalNames(acc, rooted) ==> NormalNames(ns, rooted))
      && (forall i :: 0 <= i < |ns| ==> ns[i] in acc || ns[i] == piece)
  {
  }

  /** The names `os.path.normpath` keeps from the pieces of a path split at
      "/", in order. */
  function NormNames(pieces: seq<string>, rooted: bool): seq<string>
  {
    if pieces == [] then []
    else NormStep(NormNames(pieces[..|pieces| - 1], rooted), pieces[|pieces| - 1], rooted)
  }

  /** `normpath` leaves its names in normal form, each one a piece of the
      path. */
  lemma {:induction false} NormNamesNormal(pieces: seq<string>, rooted: bool)
    ensures NormalNames(NormNames(pieces, rooted), rooted)
    ensures forall i :: 0 <= i < |NormNames(pieces, rooted)| ==> NormNames(pieces, rooted)[i] in pieces
  {
    if pieces != [] {
      var init := pieces[..|pieces| - 1];
      var last := pieces[|pieces| - 1];
      NormNamesNormal(init, rooted);
      var acc := NormNames(init, rooted);
      NormStepKeeps(acc, last, rooted);
      var ns := NormNames(pieces, rooted);
      assert ns == NormStep(acc, last, rooted);
      forall i | 0 <= i < |ns|
        ensures ns[i] in pieces
      {
        if ns[i] in acc {
          var j :| 0 <= j < |acc| && acc[j] == ns[i];
          assert init[..] == pieces[..|pieces| - 1];
        }
      }
    }
  }

  /** Names already in normal form come out unchanged: `normpath` is
      idempotent. */
  lemma {:induction false} NormNamesOfNormal(ns: seq<string>, rooted: bool)
    requires NormalNames(ns, rooted)
    ensures NormNames(ns, rooted) == ns
  {
    if ns != [] {
      var init := ns[..|ns| - 1];
      assert NormalNames(init, rooted);
      NormNamesOfNormal(init, rooted);
      if ns[|ns| - 1] == ".." && init != [] {
        assert init[|init| - 1] == "..";
      }
    }
  }

  /** `os.path.basename(os.path.normpath(d))`: the last name that `normpath`
      keeps, "" when only the root is left and "." when nothing is. */
  function LastFolderName(d: string): (n: string)
    ensures var ns := NormNames(Text.Split(d, '/'), IsRooted(d));
      && (ns != [] ==> n == ns[|ns| - 1])
      && (ns == [] ==> n == if IsRooted(d) then "" else ".")
    ensures '/' !in n
  {
    var ns := NormNames(Text.Split(d, '/'), IsRooted(d));
    LastNameNoSlash(Text.Split(d, '/'), IsRooted(d));
    if ns != [] then ns[|ns| - 1]
    else if IsRooted(d) then ""
    else "."
  }

  /** The names of a path split at "/" hold no slash. */
  lemma LastNameNoSlash(ps: seq<string>, rooted: bool)
    requires forall i :: 0 <= i < |ps| ==> '/' !in ps[i]
    ensures var ns := NormNames(ps, rooted); ns != [] ==> '/' !in ns[|ns| - 1]
  {
    var ns := NormNames(ps, rooted);
    NormNamesNormal(ps, rooted);
    if ns != [] {
      var x := ns[|ns| - 1];
      assert x in ps;
      var i :| 0 <= i < |ps| && ps[i] == x;
    }
  }

  /** A plain name: neither empty nor "." nor "..", and without a slash. */
  predicate PlainName(x: string)
  {
    x != "" && x != "." && x != ".." && '/' !in x
  }

  /** `normpath` reads the pieces from the left, one step each. */
  lemma NormNamesSnoc(ps: seq<string>, p: string, rooted: bool)
    ensures NormNames(ps + [p], rooted) == NormStep(NormNames(ps, rooted), p, rooted)
  {
    assert (ps + [p])[..|ps|] == ps;
  }

  /** A path ending in a plain name names the note after it. */
  lemma LastFolderNameOfChild(d: string, x: string)
    requires d != "" && PlainName(x)
    ensures LastFolderName(d + "/" + x) == x
  {
    Text.SplitLast(d, x, '/');
    NormNamesSnoc(Text.Split(d, '/'), x, IsRooted(d));
  }

  /** A trailing slash changes nothing. */
  lemma LastFolderNameTrailingSlash(d: string)
    requires d != ""
    ensures LastFolderName(d + "/") == LastFolderName(d)
  {
    Text.SplitLast(d, "", '/');
    assert d + "/" == d + "/" + "";
    NormNamesSnoc(Text.Split(d, '/'), "", IsRooted(d));
  }

  /** ".." right after a plain name removes that name. */
  lemma ParentStepPops(acc: seq<string>, x: string, rooted: bool)
    requires PlainName(x)
    ensures NormStep(acc + [x], "..", rooted) == acc
  {
    assert (acc + [x])[|acc|] == x;
    assert (acc + [x])[..|acc|] == acc;
  }

  /** "x/.." folds away: the note is named as if it were not there. */
  lemma LastFolderNameFoldsParent(d: string, x: string)
    requires d != "" && PlainName(x)
    ensures LastFolderName(d + "/" + x + "/..") == LastFolderName(d)
  {
    var rooted := IsRooted(d);
    var dx := d + "/" + x;
    var p := dx + "/" + "..";
    assert d + "/" + x + "/.." == p;
    assert p[0] == d[0];
    var base := Text.Split(d, '/');
    Text.SplitLast(d, x, '/');
    Text.SplitLast(dx, "..", '/');
    assert Text.Split(p, '/') == (base + [x]) + [".."];
    NormNamesSnoc(base, x, rooted);
    NormNamesSnoc(base + [x], "..", rooted);
    var acc := NormNames(base, rooted);
    assert NormNames(base + [x], rooted) == acc + [x];
    ParentStepPops(acc, x, rooted);
    assert NormNames(Text.Split(p, '/'), IsRooted(p)) == acc;
  }

  /** The user directory of the comment in `createMdFile`. */
  lemma LastFolderNameExample()
    ensures LastFolderName("/share1/USAXS_data/2026-01/1_14_setup") == "1_14_setup"
  {
    var d := "/share1/USAXS_data/2026-01";
    LastFolderNameOfChild(d, "1_14_setup");
    assert d + "/" + "1_14_setup" == "/share1/USAXS_data/2026-01/1_14_setup";
  }

  /** The same month with a "run/.." tail: `normpath` folds it away. */
  lemma LastFolderNameFoldsExample()
    ensures LastFolderName("/share1/USAXS_data/2026-01/run/..") == "2026-01"
  {
    var month := "/share1/USAXS_data" + "/" + "2026-01";
    var p := month + "/" + "run" + "/..";
    assert p == "/share1/USAXS_data/2026-01/run/..";
    calc {
      LastFolderName(p);
      { LastFolderNameFoldsParent(month, "run"); }
      LastFolderName(month);
      { LastFolderNameOfChild("/share1/USAXS_data", "2026-01"); }
      "2026-01";
    }
  }

  /** The note's file: `<month folder>/<last folder of user_dir>.md`. */
  function NotePath(month: string, userDir: string): (p: Path)
    ensures |p| == |VaultBase| + 3 && p[..|VaultBase| + 2] == MonthFolder(month)
    ensures p[|p| - 1] == LastFolderName(userDir) + ".md"
  {
    MonthFolder(month) + [LastFolderName(userDir) + ".md"]
  }

  /** The header of a new note. */
  function Header(startTime: string): string
  {
    "# Experiment Notes by USAXS instrument\n" + "Date Time: " + startTime + "\n"
  }

  /** The directories and files of the file system, as values. */
  datatype Disk = Disk(dirs: set<Path>, files: map<Path, string>)

  predicate DiskValid(d: Disk)
  {
    forall p :: p in d.dirs ==> p !in d.files
  }

  predicate ExistsOn(d: Disk, p: Path)
  {
    p in d.dirs || p in d.files
  }

  /** `createMonthFolder` on a disk: an existing path is kept, a missing
      one is made with its parents, and a file on the way raises. */
  function MonthFolderOn(d: Disk, month: string): (Result<Path>, Disk)
  {
    var folder := MonthFolder(month);
    if ExistsOn(d, folder) then (Ok(folder), d)
    else if BlockedIn(d.files, folder) then (Err(NotADirectoryError(PathString(folder))), d)
    else (Ok(folder), Disk(d.dirs + Ancestors(folder), d.files))
  }

  /** `createMonthFolder` returns an existing month folder as it is, makes
      a missing one together with the directories above it, and raises
      NotADirectoryError when a file lies on the way; files never change. */
  lemma MonthFolderMade(d: Disk, month: string)
    requires DiskValid(d)
    ensures var (r, d') := MonthFolderOn(d, month);
      var folder := MonthFolder(month);
      && d'.files == d.files && DiskValid(d')
      && (ExistsOn(d, folder) ==> r == Ok(folder) && d' == d)
      && (!ExistsOn(d, folder) && BlockedIn(d.files, folder) ==> r == Err(NotADirectoryError(PathString(folder))) && d' == d)
      && (!ExistsOn(d, folder) && !BlockedIn(d.files, folder) ==>
            r == Ok(folder) && d'.dirs == d.dirs + Ancestors(folder) && folder in d'.dirs)
  {
    var folder := MonthFolder(month);
    assert folder[..|folder|] == folder;
    if !ExistsOn(d, folder) && !BlockedIn(d.files, folder) {
      forall q | q in Ancestors(folder)
        ensures q !in d.files
      {
        if |q| < |folder| {
          assert !(1 <= |q| < |folder| && folder[..|q|] in d.files);
        }
      }
    }
  }

  /** `createMonthFolder`: made (with its parents) only when missing. */
  method CreateMonthFolder(fs: FileSystem, month: string) returns (r: Result<Path>)
    requires fs.Valid()
    modifies fs
    ensures fs.Valid()
    ensures (r, Disk(fs.dirs, fs.files)) == MonthFolderOn(Disk(old(fs.dirs), old(fs.files)), month)
  {
    var folder := MonthFolder(month);
    if fs.Exists(folder) {
      return Ok(folder);
    }
    var e := fs.MakeDirs(folder, false);
    if e.Some? {
      return Err(e.value);
    }
    return Ok(folder);
  }

  /** `createMdFile` on a disk: the month folder, then the note with its
      header when the note does not exist yet. */
  function CreateMdFileOn(d: Disk, month: string, userDir: string, startTime: string): (Result<Path>, Disk)
  {
    var (folder, d1) := MonthFolderOn(d, month);
    var note := NotePath(month, userDir);
    if folder.Err? then (Err(folder.error), d1)
    else if ExistsOn(d1, note) then (Ok(note), d1)
    else match OpenFailure(d1.dirs, d1.files, note)
      case Some(e) => (Err(e), d1)
      case None => (Ok(note), Disk(d1.dirs, d1.files[note := Header(startTime)]))
  }

  /** `appendToMdFile(text)` on a disk: `createMdFile`, then `text` and a
      newline at the end of the note. */
  function AppendToMdFileOn(d: Disk, month: string, userDir: string, startTime: string, text: string): (Option<Error>, Disk)
  {
    var (note, d1) := CreateMdFileOn(d, month, userDir, startTime);
    if note.Err? then (Some(note.error), d1)
    else match OpenFailure(d1.dirs, d1.files, note.value)
      case Some(e) => (Some(e), d1)
      case None =>
        var old_ := if note.value in d1.files then d1.files[note.value] else "";
        (None, Disk(d1.dirs, d1.files[note.value := old_ + text + "\n"]))
  }

  /** The note lies in the month folder: a file lies on the way to the note
      exactly when the month folder is a file or one lies on the way to it. */
  lemma NoteBlocked(files: map<Path, string>, month: string, userDir: string)
    ensures var note := NotePath(month, userDir);
      && note[..|note| - 1] == MonthFolder(month)
      && (BlockedIn(files, note) <==> MonthFolder(month) in files || BlockedIn(files, MonthFolder(month)))
  {
    var note := NotePath(month, userDir);
    assert note == MonthFolder(month) + [LastFolderName(userDir) + ".md"];
    BlockedChild(files, MonthFolder(month), LastFolderName(userDir) + ".md");
  }

  /** `createMdFile` raises exactly when a file lies on the way to the note
      and the note is not already there under an existing month folder; a
      file at the month-folder path makes `open(..., "w")` raise
      NotADirectoryError naming the note.  A failure writes nothing. */
  lemma CreateMdFileFails(d: Disk, month: string, userDir: string, startTime: string)
    requires DiskValid(d)
    ensures var (r, d') := CreateMdFileOn(d, month, userDir, startTime);
      var folder, note := MonthFolder(month), NotePath(month, userDir);
      && (r.Err? <==> BlockedIn(d.files, note) && !(ExistsOn(d, folder) && ExistsOn(d, note)))
      && (folder in d.files && !ExistsOn(d, note) ==> r == Err(NotADirectoryError(PathString(note))))
      && (r.Err? ==> d' == d)
  {
    var folder, note := MonthFolder(month), NotePath(month, userDir);
    NoteBlocked(d.files, month, userDir);
    assert folder[..|folder|] == folder;
    assert note !in Ancestors(folder);
  }

  /** On success the note exists; a note that existed is left as it was,
      a new one holds the two header lines; no other file changes and the
      only new directories are the month folder and those above it. */
  lemma CreateMdFileWrites(d: Disk, month: string, userDir: string, startTime: string)
    requires DiskValid(d)
    ensures var (r, d') := CreateMdFileOn(d, month, userDir, startTime);
      var note := NotePath(month, userDir);
      && (r.Ok? ==> r.value == note && ExistsOn(d', note))
      && (r.Ok? && ExistsOn(d, note) ==> d'.files == d.files)
      && (r.Ok? && !ExistsOn(d, note) ==> d'.files == d.files[note := Header(startTime)])
      && d.dirs <= d'.dirs <= d.dirs + Ancestors(MonthFolder(month))
      && DiskValid(d')
  {
    var folder, note := MonthFolder(month), NotePath(month, userDir);
    NoteBlocked(d.files, month, userDir);
    assert note !in Ancestors(folder);
    MonthFolderMade(d, month);
  }

  /** `appendToMdFile` raises exactly when a file lies on the way to the
      note or the note is a directory; in particular a file at the
      month-folder path raises NotADirectoryError naming the note. */
  lemma AppendToMdFileFails(d: Disk, month: string, userDir: string, startTime: string, text: string)
    requires DiskValid(d)
    ensures var (r, d') := AppendToMdFileOn(d, month, userDir, startTime, text);
      var note := NotePath(month, userDir);
      && (r.None? <==> !BlockedIn(d.files, note) && note !in d.dirs)
      && (MonthFolder(month) in d.files ==> r == Some(NotADirectoryError(PathString(note))))
  {
    var folder, note := MonthFolder(month), NotePath(month, userDir);
    CreateMdFileFails(d, month, userDir, startTime);
    CreateMdFileWrites(d, month, userDir, startTime);
    var (c, d1) := CreateMdFileOn(d, month, userDir, startTime);
    if c.Ok? {
      NoteBlocked(d.files, month, userDir);
      BlockedIgnoresSelf(d.files, note, Header(startTime));
      assert folder[..|folder|] == folder;
      assert note !in Ancestors(folder);
      assert BlockedIn(d1.files, note) == BlockedIn(d.files, note);
      assert (note in d1.dirs) == (note in d.dirs);
      assert folder in d1.dirs || BlockedIn(d.files, note);
    }
  }

  /** On success the note ends with `text` and a newline after what it held
      (or after the header, for a new note), and no other file changes. */
  lemma AppendToMdFileAppends(d: Disk, month: string, userDir: string, startTime: string, text: string)
    requires DiskValid(d)
    ensures var (r, d') := AppendToMdFileOn(d, month, userDir, startTime, text);
      var note := NotePath(month, userDir);
      && (forall p :: p in d.files && p != note ==> p in d'.files && d'.files[p] == d.files[p])
      && (r.None? ==> note in d'.files)
      && (r.None? && note in d.files ==> d'.files[note] == d.files[note] + text + "\n")
      && (r.None? && note !in d.files ==> d'.files[note] == Header(startTime) + text + "\n")
  {
    CreateMdFileWrites(d, month, userDir, startTime);
  }

  /** `createMdFile`: the month folder, then the note, written with its two
      header lines only when it does not exist yet. */
  method CreateMdFile(fs: FileSystem, month: string, userDir: string, startTime: string)
    returns (r: Result<Path>)
    requires fs.Valid()
    modifies fs
    ensures fs.Valid()
    ensures (r, Disk(fs.dirs, fs.files)) == CreateMdFileOn(Disk(old(fs.dirs), old(fs.files)), month, userDir, startTime)
  {
    var folder := CreateMonthFolder(fs, month);
    if folder.Err? {
      return Err(folder.error);
    }
    var note := NotePath(month, userDir);
    if !fs.Exists(note) {
      var e := fs.WriteFile(note, Header(startTime));
      if e.Some? {
        return Err(e.value);
      }
    }
    return Ok(note);
  }

  /** `appendToMdFile(text)`. */
  method AppendToMdFile(fs: FileSystem, month: string, userDir: string, startTime: string, text: string)
    returns (r: Option<Error>)
    requires fs.Valid()
    modifies fs
    ensures fs.Valid()
    ensures (r, Disk(fs.dirs, fs.files)) == AppendToMdFileOn(Disk(old(fs.dirs), old(fs.files)), month, userDir, startTime, text)
  {
    var note := CreateMdFile(fs, month, userDir, startTime);
    if note.Err? {
      return Some(note.error);
    }
    ghost var before := if note.value in fs.files then fs.files[note.value] else "";
    assert before + (text + "\n") == before + text + "\n";
    r := fs.AppendFile(note.value, text + "\n");
  }

  /** The note after appending `texts` in order. */
  function Appended(note: string, texts: seq<string>): (r: string)
    ensures |r| >= |note|
    decreases texts
  {
    if texts == [] then note else Appended(note + texts[0] + "\n", texts[1..])
  }

  /** Appends only ever extend a note: after any number of them the old
      note is a prefix of the new one. */
  lemma {:induction false} AppendedPrefix(note: string, texts: seq<string>)
    ensures Appended(note, texts)[..|note|] == note
    decreases texts
  {
    if texts != [] {
      var next := note + texts[0] + "\n";
      AppendedPrefix(next, texts[1..]);
      assert Appended(note, texts)[..|next|] == next;
      assert next[..|note|] == note;
    }
  }
}
