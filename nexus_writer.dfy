// The USAXS NeXus writer callbacks: which runs they write, the data file
// name, the datasets of a stream, text encoding, the fly-scan stream alias,
// and the rewrite of area-detector resource paths.

module NexusWriter {
  import opened Wrappers
  import Text
  import opened OrderedDicts
  import CleanupText
  import DataDirs
  import FileTree

  // ----- resource paths (SAXS/WAXS writer) -----

  const ControlMount: string := "/mnt/usaxscontrol/USAXS_data/"
  const SharedMount: string := "/share1/USAXS_data/"

  predicate StartsWith(s: string, prefix: string)
  {
    |prefix| <= |s| && s[..|prefix|] == prefix
  }

  /** `getResourceFile`, given the absolute file name of the resource: the
      control-computer mount is replaced by the shared mount, the rest of
      the path kept; any other path is returned as it is. */
  function ResourceFile(fname: string): (r: string)
    ensures StartsWith(fname, ControlMount) ==>
      StartsWith(r, SharedMount) && r[|SharedMount|..] == fname[|ControlMount|..]
    ensures !StartsWith(fname, ControlMount) ==> r == fname
  {
    if StartsWith(fname, ControlMount) then SharedMount + fname[|ControlMount|..] else fname
  }

  /** Rewriting twice is rewriting once: a rewritten path is no longer on
      the control mount. */
  lemma ResourceFileIdempotent(fname: string)
    ensures ResourceFile(ResourceFile(fname)) == ResourceFile(fname)
  {
    var r := ResourceFile(fname);
    if StartsWith(fname, ControlMount) {
      assert r[1] == 's' && ControlMount[1] == 'm';
    }
  }

  // ----- h5string -----

  /** The Python values a stream column may hold. */
  datatype PyValue = PStr(s: string) | PNone | PInt(i: int) | PBool(b: bool) | PList(items: seq<PyValue>)

  /** What `h5string` returns: bytes, or a list of them. */
  datatype H5Text = Bytes(bytes: seq<byte>) | Items(items: seq<H5Text>)

  /** An octet of an encoded string. */
  newtype byte = k: int | 0 <= k < 0x100

  /** The UTF-8 bytes of one character. */
  function Utf8Char(c: char): (bs: seq<byte>)
    ensures 1 <= |bs| <= 4
    ensures c as int < 0x80 <==> |bs| == 1
    ensures c as int < 0x80 ==> bs[0] as int == c as int
  {
    var n := c as int;
    if n < 0x80 then [n as byte]
    else if n < 0x800 then [(0xC0 + n / 0x40) as byte, (0x80 + n % 0x40) as byte]
    else if n < 0x10000 then
      [(0xE0 + n / 0x1000) as byte, (0x80 + n / 0x40 % 0x40) as byte, (0x80 + n % 0x40) as byte]
    else
      [(0xF0 + n / 0x40000) as byte, (0x80 + n / 0x1000 % 0x40) as byte,
       (0x80 + n / 0x40 % 0x40) as byte, (0x80 + n % 0x40) as byte]
  }

  /** `text.encode("utf8")`. */
  function Utf8(s: string): (bs: seq<byte>)
    ensures |bs| >= |s|
  {
    if s == [] then [] else Utf8Char(s[0]) + Utf8(s[1..])
  }

  predicate IsAscii(s: string) { forall i :: 0 <= i < |s| ==> s[i] as int < 0x80 }

  /** ASCII text encodes byte for byte. */
  lemma {:induction false} Utf8Ascii(s: string)
    requires IsAscii(s)
    ensures |Utf8(s)| == |s| && forall i :: 0 <= i < |s| ==> Utf8(s)[i] as int == s[i] as int
  {
    if s != [] {
      Utf8Ascii(s[1..]);
      assert Utf8(s) == Utf8Char(s[0]) + Utf8(s[1..]);
    }
  }

  /** `str(v)` (the repr of a string inside a list does not escape quotes). */
  function Str(v: PyValue): string
    decreases v, 1
  {
    match v
    case PStr(s) => s
    case PNone => "None"
    case PInt(i) => Text.IntToString(i)
    case PBool(b) => if b then "True" else "False"
    case PList(items) => "[" + Text.Join(", ", ReprAll(items)) + "]"
  }

  function Repr(v: PyValue): string
    decreases v, 2
  {
    match v
    case PStr(s) => "'" + s + "'"
    case _ => Str(v)
  }

  function ReprAll(items: seq<PyValue>): (rs: seq<string>)
    ensures |rs| == |items|
    decreases items, 3
  {
    if items == [] then [] else [Repr(items[0])] + ReprAll(items[1..])
  }

  /** Python truthiness of a value. */
  predicate Truthy(v: PyValue)
  {
    match v
    case PStr(s) => s != ""
    case PNone => false
    case PInt(i) => i != 0
    case PBool(b) => b
    case PList(items) => items != []
  }

  /** `h5string(text)`: a list or tuple maps each item, after `str()`; any
      other falsy value becomes b""; a string is encoded; anything else has
      no `encode` and raises AttributeError. */
  function H5String(v: PyValue): (r: Result<H5Text>)
    ensures v.PList? ==> (r.Ok? && r.value.Items? && |r.value.items| == |v.items| &&
      forall i :: 0 <= i < |v.items| ==> r.value.items[i] == Bytes(Utf8(Str(v.items[i]))))
    ensures !v.PList? && !Truthy(v) ==> r == Ok(Bytes([]))
    ensures v.PStr? ==> r == Ok(Bytes(Utf8(v.s)))
    ensures !v.PList? && !v.PStr? && Truthy(v) ==> r == Err(AttributeError)
  {
    match v
    case PList(items) => Ok(Items(EncodeAll(items)))
    case PStr(s) => Ok(Bytes(Utf8(s)))
    case _ => if Truthy(v) then Err(AttributeError) else Ok(Bytes([]))
  }

  function EncodeAll(items: seq<PyValue>): (es: seq<H5Text>)
    ensures |es| == |items| && forall i :: 0 <= i < |items| ==> es[i] == Bytes(Utf8(Str(items[i])))
  {
    if items == [] then [] else [Bytes(Utf8(Str(items[0])))] + EncodeAll(items[1..])
  }

  /** A list's items are encoded one by one, so encoding a list of strings
      and then reading each item as text gives the strings back (for ASCII
      text, byte for byte). */
  lemma H5StringAsciiList(ss: seq<string>, i: nat)
    requires i < |ss| && IsAscii(ss[i])
    ensures var r := H5String(PList(seq(|ss|, k requires 0 <= k < |ss| => PStr(ss[k]))));
      r.Ok? && r.value.Items? && r.value.items[i].Bytes? &&
      |r.value.items[i].bytes| == |ss[i]| &&
      forall j :: 0 <= j < |ss[i]| ==> r.value.items[i].bytes[j] as int == ss[i][j] as int
  {
    Utf8Ascii(ss[i]);
  }

  // ----- stream datasets -----

  /** One dataset written into a stream's subgroup. */
  datatype Dataset<T> = Dataset(name: string, data: DataShape<T>)
  datatype DataShape<T> = Column(values: seq<T>) | Single(value: T)

  /** The datasets `write_stream_internal` writes for a column `d` (already
      converted): "value" with the whole column, and for the baseline
      stream also "value_start" (the first item) and "value_end" (the last
      item); an empty baseline column raises IndexError. */
  function StreamDatasets<T>(streamName: string, d: seq<T>): (r: Result<seq<Dataset<T>>>)
    ensures streamName != "baseline" ==> r == Ok([Dataset("value", Column(d))])
    ensures streamName == "baseline" && d == [] ==> r == Err(IndexError)
    ensures streamName == "baseline" && d != [] ==>
      r.Ok? && |r.value| == 3 && r.value[0] == Dataset("value", Column(d)) &&
      r.value[1] == Dataset("value_start", Single(d[0])) &&
      r.value[2] == Dataset("value_end", Single(d[|d| - 1]))
  {
    var whole := [Dataset("value", Column(d))];
    if streamName != "baseline" then Ok(whole)
    else if d == [] then Err(IndexError)
    else Ok(whole + [Dataset("value_start", Single(d[0])), Dataset("value_end", Single(d[|d| - 1]))])
  }

  /** The start and end values of a baseline that was read once are the
      same reading. */
  lemma BaselineSingleReading<T>(x: T)
    ensures var r := StreamDatasets("baseline", [x]);
      r.Ok? && r.value[1].data.value == r.value[2].data.value == x
  {
  }

  // ----- the fly-scan stream alias -----

  /** `write_streams` of the fly-scan writer: when there is an "mca" stream
      but no "primary", "primary" is added as another name for it. */
  function AliasPrimary<G>(bluesky: Dict<string, G>): (r: Dict<string, G>)
    ensures "primary" !in Keys(bluesky) && "mca" in Keys(bluesky) ==>
      r == bluesky + [("primary", Get(bluesky, "mca").value)]
    ensures !("primary" !in Keys(bluesky) && "mca" in Keys(bluesky)) ==> r == bluesky
  {
    if "primary" !in Keys(bluesky) && "mca" in Keys(bluesky) then
      PutAbsent(bluesky, "primary", Get(bluesky, "mca").value);
      Put(bluesky, "primary", Get(bluesky, "mca").value)
    else bluesky
  }

  /** After the alias "primary" and "mca" are the same group, and aliasing
      again changes nothing. */
  lemma AliasPrimaryProperties<G>(bluesky: Dict<string, G>)
    requires "mca" in Keys(bluesky)
    ensures "primary" !in Keys(bluesky) ==>
      Get(AliasPrimary(bluesky), "primary") == Get(bluesky, "mca") == Get(AliasPrimary(bluesky), "mca")
    ensures AliasPrimary(AliasPrimary(bluesky)) == AliasPrimary(bluesky)
  {
    if "primary" !in Keys(bluesky) {
      var v := Get(bluesky, "mca").value;
      PutAbsent(bluesky, "primary", v);
      GetPut(bluesky, "primary", v, "primary");
      GetPut(bluesky, "primary", v, "mca");
      assert Keys(AliasPrimary(bluesky)) == Keys(bluesky) + ["primary"];
    }
  }

  // ----- start / writer gating -----

  /** The three writers and the plans each supports. */
  datatype Kind = FlyScan | SaxsWaxs | Uascan

  function SupportedPlans(k: Kind): seq<string>
  {
    match k
    case FlyScan => ["Flyscan"]
    case SaxsWaxs => ["SAXS", "WAXS"]
    case Uascan => ["uascan"]
  }

  /** `os.path.join(a, b)` for a relative `b`. */
  function JoinPath(a: string, b: string): string
  {
    if |b| > 0 && b[0] == '/' then b
    else if a == "" || a[|a| - 1] == '/' then a + b
    else a + "/" + b
  }

  /** The data file name: the cleaned sample title, "_", the fly-scan order
      number in four digits, ".h5". */
  function DataFileName(sampleTitle: string, orderNumber: int): (f: string)
    ensures |f| >= |sampleTitle| + 8
    ensures f[..|sampleTitle|] == CleanupText.CleanupText(sampleTitle)
    ensures forall i :: 0 <= i < |sampleTitle| ==> CleanupText.IsNameChar(f[i])
    ensures f[|sampleTitle|] == '_' && f[|f| - 3..] == ".h5"
    ensures orderNumber >= 0 ==> var d := f[|sampleTitle| + 1..|f| - 3];
      (forall i :: 0 <= i < |d| ==> Text.IsDigit(d[i])) && Text.DigitsValue(d) == orderNumber
  {
    var c := CleanupText.CleanupText(sampleTitle);
    var z := Text.ZeroPad(orderNumber, 4);
    var f := c + "_" + z + ".h5";
    assert f[|sampleTitle| + 1..|f| - 3] == z;
    if orderNumber < 0 then f
    else Text.ZeroPadValue(orderNumber, 4); f
  }

  /** A data file name never leaves the technique directory: it has no
      slash, so joining keeps the directory as its prefix. */
  lemma DataFileNameStaysInside(dir: string, sampleTitle: string, orderNumber: int)
    requires dir != ""
    ensures var f := DataFileName(sampleTitle, orderNumber);
      StartsWith(JoinPath(dir, f), dir) &&
      JoinPath(dir, f)[|JoinPath(dir, f)| - |f|..] == f
  {
    var f := DataFileName(sampleTitle, orderNumber);
    var c := CleanupText.CleanupText(sampleTitle);
    if |c| > 0 {
      assert f[0] == c[0];
      assert CleanupText.IsNameChar(c[0]);
    } else {
      assert f[0] == '_';
    }
  }

  class Writer {
    const kind: Kind
    var scanning: bool
    var fileName: Option<string>

    constructor(kind: Kind)
      ensures this.kind == kind && !scanning && fileName.None?
    {
      this.kind := kind;
      scanning := false;
      fileName := None;
    }

    /** `start(doc)`: for a supported plan, scanning is set, and then the
        file name is the technique directory joined with the data file name;
        if making the directory raises, scanning stays set and the name is
        not changed.  For any other plan scanning is cleared and the name
        kept.  The user directory, sample folder, title and order number
        are EPICS readings. */
    method Start(planName: Option<string>, fs: FileTree.FileSystem, userDir: string, sampleDir: string,
                 cwd: FileTree.Path, sampleTitle: string, orderNumber: int)
      returns (r: Option<Error>)
      requires fs.Valid()
      modifies this, fs
      ensures fs.Valid()
      ensures planName.None? || planName.value !in SupportedPlans(kind) ==>
        !scanning && fileName == old(fileName) && r.None? && fs.dirs == old(fs.dirs) && fs.files == old(fs.files)
      ensures planName.Some? && planName.value in SupportedPlans(kind) ==> (scanning &&
        var ok := DataDirs.CanCreate(old(fs.dirs), old(fs.files), userDir, sampleDir, "usaxs", cwd);
        (ok ==> r.None? && fileName == Some(JoinPath(
           FileTree.PathString(DataDirs.Resolve(DataDirs.TechniquePath(userDir, sampleDir, "usaxs"), cwd)),
           DataFileName(sampleTitle, orderNumber)))) &&
        (!ok ==> r.Some? && fileName == old(fileName)))
    {
      if planName.Some? && planName.value in SupportedPlans(kind) {
        scanning := true;
        var path := DataDirs.TechniqueSubdirectory(fs, userDir, sampleDir, "usaxs", cwd);
        if path.Err? {
          return Some(path.error);
        }
        fileName := Some(JoinPath(path.value, DataFileName(sampleTitle, orderNumber)));
        return None;
      }
      scanning := false;
      return None;
    }

    /** `writer()`: data are written only for a supported plan. */
    function Writes(planName: Option<string>): (w: bool)
      ensures w <==> planName.Some? && planName.value in SupportedPlans(kind)
    {
      planName.Some? && planName.value in SupportedPlans(kind)
    }
  }

  /** The three writers never claim the same plan, so at most one of them
      writes any run. */
  lemma WritersDisjoint(plan: string, a: Kind, b: Kind)
    requires a != b
    ensures !(plan in SupportedPlans(a) && plan in SupportedPlans(b))
  {
  }
}
