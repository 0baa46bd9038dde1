// Area-detector file writing shared by the two copies of
// `area_detector_common`: the write-path check, the HDF5 writer's staging
// (separator rule, file-name template), and the plugin priming override.

module AreaDetectorCommon {
  import opened Wrappers
  import Text

  /** The two copies of the module; they differ only in the error message. */
  datatype Copy = Current | Older

  predicate StartsWith(s: string, prefix: string)
  {
    |prefix| <= |s| && s[..|prefix|] == prefix
  }

  /** The ValueError text of a rejected path. The older copy drops the
      closing quote after the root. */
  function PathMessage(copy: Copy, file: string, path: string, root: string): (m: string)
    ensures StartsWith(m, "error in file " + file + ":")
  {
    match copy
    case Current => "error in file " + file + ": path '" + path + "' must start with '" + root + "'"
    case Older => "error in file " + file + ":\n  path '" + path + "' must start with '" + root
  }

  /** `_validate_AD_FileWriter_path_(path, root_path)`, with `file` the
      module's own file name. */
  function ValidatePath(copy: Copy, file: string, path: string, root: string): (r: Option<Error>)
    ensures r.None? <==> StartsWith(path, root)
    ensures r.Some? ==> r.value.ValueError? && StartsWith(r.value.msg, "error in file " + file + ":")
  {
    if StartsWith(path, root) then None else Some(ValueError(PathMessage(copy, file, path, root)))
  }

  /** The older message ends with the root itself, the current one with a
      closing quote after it. */
  lemma PathMessageEnds(file: string, path: string, root: string)
    ensures var m := PathMessage(Current, file, path, root); m[|m| - 1] == '\''
    ensures var m := PathMessage(Older, file, path, root); m[|m| - |root|..] == root
  {
  }

  predicate IsSeparator(c: char) { c == '/' || c == '\\' }

  /** The write path as `stage` sends it: a path already ending in `/` or
      `\` is kept; otherwise `\` is appended if the path contains one, and
      `/` if not. */
  function WithSeparator(w: string): (r: string)
    ensures |r| > 0 && IsSeparator(r[|r| - 1])
    ensures |w| > 0 && IsSeparator(w[|w| - 1]) ==> r == w
    ensures !(|w| > 0 && IsSeparator(w[|w| - 1])) ==>
      r == w + [if '\\' in w then '\\' else '/']
  {
    if |w| > 0 && IsSeparator(w[|w| - 1]) then w
    else if '\\' in w then w + "\\"
    else w + "/"
  }

  /** A second application changes nothing, and the separator added never
      mixes styles: a path with no backslash never gets one. */
  lemma WithSeparatorIdempotent(w: string)
    ensures WithSeparator(WithSeparator(w)) == WithSeparator(w)
    ensures '\\' !in w ==> '\\' !in WithSeparator(w)
  {
    if !(|w| > 0 && IsSeparator(w[|w| - 1])) && '\\' !in w {
      assert WithSeparator(w) == w + ['/'];
      assert forall i :: 0 <= i < |w| + 1 ==> (w + ['/'])[i] != '\\';
    }
  }

  /** One piece of a `%`-style file template: literal text, `%s`, or `%W.Pd`
      (only the precision matters for the non-negative numbers used here;
      a negative number keeps its sign before the digits). */
  datatype Piece = Lit(text: string) | StrArg | IntArg(precision: nat)

  /** An argument of the `%` operator. */
  datatype Arg = SArg(s: string) | NArg(n: int)

  /** `%.Pd`: at least P digits after the sign. */
  function PrecisionDigits(n: int, precision: nat): (s: string)
    ensures n >= 0 ==> |s| >= precision
  {
    var digits := Text.NatToString(if n < 0 then -n else n);
    var pad := if |digits| < precision then precision - |digits| else 0;
    (if n < 0 then "-" else "") + seq(pad, _ => '0') + digits
  }

  /** Whether the arguments fit the template one by one: as many as it has
      directives, and a number wherever it has `%d`. */
  predicate Fits(t: seq<Piece>, args: seq<Arg>)
  {
    if t == [] then args == []
    else match t[0]
      case Lit(_) => Fits(t[1..], args)
      case StrArg => args != [] && Fits(t[1..], args[1..])
      case IntArg(_) => args != [] && args[0].NArg? && Fits(t[1..], args[1..])
  }

  /** `template % args`; a mismatch raises TypeError. */
  function Format(t: seq<Piece>, args: seq<Arg>): (r: Result<string>)
    ensures r.Ok? <==> Fits(t, args)
    ensures !r.Ok? ==> r == Err(TypeError)
  {
    if t == [] then (if args == [] then Ok("") else Err(TypeError))
    else
      var rest := if t[0].Lit? then Format(t[1..], args)
                  else if args == [] then Err(TypeError)
                  else Format(t[1..], args[1..]);
      if rest.Err? then rest
      else match t[0]
        case Lit(text) => Ok(text + rest.value)
        case StrArg =>
          Ok((match args[0] case SArg(s) => s case NArg(n) => Text.IntToString(n)) + rest.value)
        case IntArg(p) =>
          if args[0].NArg? then Ok(PrecisionDigits(args[0].n, p) + rest.value) else Err(TypeError)
  }

  /** The area-detector file template `%s%s_%4.4d.hdf`. */
  const AdFileTemplate: seq<Piece> := [StrArg, StrArg, Lit("_"), IntArg(4), Lit(".hdf")]

  /** With that template the full file name is the read path, the file name,
      an underscore, the number in at least four digits, and ".hdf". */
  lemma AdTemplateName(readPath: string, fileName: string, n: int)
    ensures Format(AdFileTemplate, [SArg(readPath), SArg(fileName), NArg(n)])
            == Ok(readPath + fileName + "_" + PrecisionDigits(n, 4) + ".hdf")
  {
    var d := PrecisionDigits(n, 4);
    assert [Lit(".hdf")][1..] == [];
    assert Format([Lit(".hdf")], []) == Ok(".hdf" + "");
    assert ".hdf" + "" == ".hdf";
    assert [IntArg(4), Lit(".hdf")][1..] == [Lit(".hdf")];
    assert [NArg(n)][1..] == [];
    assert Format([IntArg(4), Lit(".hdf")], [NArg(n)]) == Ok(d + ".hdf");
    assert [Lit("_"), IntArg(4), Lit(".hdf")][1..] == [IntArg(4), Lit(".hdf")];
    assert Format([Lit("_"), IntArg(4), Lit(".hdf")], [NArg(n)]) == Ok("_" + (d + ".hdf"));
    assert [StrArg, Lit("_"), IntArg(4), Lit(".hdf")][1..] == [Lit("_"), IntArg(4), Lit(".hdf")];
    assert [SArg(fileName), NArg(n)][1..] == [NArg(n)];
    assert Format([StrArg, Lit("_"), IntArg(4), Lit(".hdf")], [SArg(fileName), NArg(n)])
      == Ok(fileName + ("_" + (d + ".hdf")));
    assert readPath + (fileName + ("_" + (d + ".hdf"))) == readPath + fileName + "_" + d + ".hdf";
    assert AdFileTemplate[1..] == [StrArg, Lit("_"), IntArg(4), Lit(".hdf")];
    assert [SArg(readPath), SArg(fileName), NArg(n)][1..] == [SArg(fileName), NArg(n)];
  }

  /** The HDF5 file-writer plugin as `stage` sees and changes it. */
  class Hdf5Writer {
    var capture: int
    var filePath: string
    var fileName: string
    var fileNumber: int
    var template: seq<Piece>
    /** `file_path_exists`, as the IOC reports it after the path is written. */
    var pathExists: bool
    /** `_fn` and `_fp`: the full file name and the read path. */
    var fullName: string
    var readPath: string

    constructor(fileNumber: int, template: seq<Piece>, pathExists: bool)
      ensures this.fileNumber == fileNumber && this.template == template && this.pathExists == pathExists
      ensures capture == 0 && filePath == "" && fileName == "" && fullName == "" && readPath == ""
    {
      this.fileNumber := fileNumber;
      this.template := template;
      this.pathExists := pathExists;
      capture := 0;
      filePath := "";
      fileName := "";
      fullName := "";
      readPath := "";
    }

    /** `stage` for a made-up `(filename, read_path, write_path)`: capture
        off, the separated write path and the file name written, and the
        full name formed from the file number as it was BEFORE staging (the
        parent stage, which would zero it, is bypassed).  A template that
        does not fit raises TypeError; a path the IOC says is missing raises
        IOError after the names are set. */
    method Stage(name: string, read: string, write: string) returns (r: Option<Error>)
      modifies this
      ensures capture == 0 && filePath == WithSeparator(write) && fileName == name
      ensures fileNumber == old(fileNumber) && template == old(template) && pathExists == old(pathExists)
      ensures var f := Format(template, [SArg(read), SArg(name), NArg(fileNumber)]);
        match f
        case Err(e) => r == Some(e) && fullName == old(fullName) && readPath == old(readPath)
        case Ok(full) =>
          fullName == full && readPath == read &&
          r == (if pathExists then None
                else Some(IOError("Path " + WithSeparator(write) + " does not exist on IOC.")))
    {
      capture := 0;
      filePath := WithSeparator(write);
      fileName := name;
      var number := fileNumber;
      var f := Format(template, [SArg(read), SArg(name), NArg(number)]);
      if f.Err? {
        return Some(f.error);
      }
      fullName := f.value;
      readPath := read;
      if !pathExists {
        return Some(IOError("Path " + filePath + " does not exist on IOC."));
      }
      return None;
    }
  }

  /** What the primed check reads from the camera and from the plugin. */
  datatype PortState = PortState(arraySize: seq<int>, colorMode: string)

  function Sum(xs: seq<int>): int
  {
    if xs == [] then 0 else Sum(xs[..|xs| - 1]) + xs[|xs| - 1]
  }

  /** `Override_AD_plugin_primed`: the list of tests the source builds
      (camera size nonzero, plugin size nonzero, sizes equal, colour modes
      equal), none of which may be False. */
  predicate Primed(cam: PortState, plugin: PortState)
  {
    var tests := [Sum(cam.arraySize) != 0, Sum(plugin.arraySize) != 0,
                  cam.arraySize == plugin.arraySize, cam.colorMode == plugin.colorMode];
    false !in tests
  }

  /** The test list is the conjunction of its four tests; a plugin whose
      sizes match a camera with a nonzero size therefore needs only the
      colour mode to agree. */
  lemma PrimedIff(cam: PortState, plugin: PortState)
    ensures Primed(cam, plugin) <==>
      Sum(cam.arraySize) != 0 && Sum(plugin.arraySize) != 0 &&
      cam.arraySize == plugin.arraySize && cam.colorMode == plugin.colorMode
  {
    var tests := [Sum(cam.arraySize) != 0, Sum(plugin.arraySize) != 0,
                  cam.arraySize == plugin.arraySize, cam.colorMode == plugin.colorMode];
    assert tests[0] == (Sum(cam.arraySize) != 0);
    assert tests[1] == (Sum(plugin.arraySize) != 0);
    assert tests[2] == (cam.arraySize == plugin.arraySize);
    assert tests[3] == (cam.colorMode == plugin.colorMode);
  }

  /** The signals `prime_plugin2` sets, in its order. */
  datatype Sig = Enable | ArrayCallbacks | ImageMode | TriggerMode | AcquireTime | AcquirePeriod | Acquire

  const PrimeCount: nat := 7

  function PrimeSig(k: nat): (s: Sig)
    requires k < PrimeCount
    ensures SigIndex(s) == k
  {
    [Enable, ArrayCallbacks, ImageMode, TriggerMode, AcquireTime, AcquirePeriod, Acquire][k]
  }

  function SigIndex(s: Sig): (k: nat)
    ensures k < PrimeCount
  {
    match s
    case Enable => 0
    case ArrayCallbacks => 1
    case ImageMode => 2
    case TriggerMode => 3
    case AcquireTime => 4
    case AcquirePeriod => 5
    case Acquire => 6
  }

  lemma SigIndexInverse(s: Sig)
    ensures PrimeSig(SigIndex(s)) == s
  {
  }

  /** The value each signal is set to while priming. */
  function PrimeValue(s: Sig): real
  {
    match s
    case ImageMode => 0.0
    case TriggerMode => 0.0
    case _ => 1.0
  }

  /** The priming writes, in order. */
  function Priming(k: nat): (ws: seq<(Sig, real)>)
    requires k <= PrimeCount
    ensures |ws| == k && forall i :: 0 <= i < k ==> ws[i] == (PrimeSig(i), PrimeValue(PrimeSig(i)))
  {
    if k == 0 then [] else Priming(k - 1) + [(PrimeSig(k - 1), PrimeValue(PrimeSig(k - 1)))]
  }

  /** The restoring writes: signals `PrimeCount-1` down to `k` back to
      their saved values. */
  function Restoring(saved: map<Sig, real>, k: nat): (ws: seq<(Sig, real)>)
    requires k <= PrimeCount && forall s: Sig :: s in saved
    ensures |ws| == PrimeCount - k
    ensures forall i :: 0 <= i < |ws| ==>
      ws[i] == (PrimeSig(PrimeCount - 1 - i), saved[PrimeSig(PrimeCount - 1 - i)])
    decreases PrimeCount - k
  {
    if k == PrimeCount then []
    else
      var s := PrimeSig(k);
      Restoring(saved, k + 1) + [(s, saved[s])]
  }

  /** The camera and plugin signals that priming touches. */
  class PluginSignals {
    var values: map<Sig, real>
    var writes: seq<(Sig, real)>

    predicate Valid()
      reads this
    {
      forall s: Sig :: s in values
    }

    constructor(values: map<Sig, real>)
      requires forall s: Sig :: s in values
      ensures Valid() && this.values == values && writes == []
    {
      this.values := values;
      writes := [];
    }

    /** `Override_AD_prime_plugin2`: nothing when the plugin is already
        primed; otherwise every listed signal is set in order, and then
        every one is set back to the value it had before, in reverse order,
        so afterwards every signal holds its original value again. */
    method PrimePlugin(cam: PortState, plugin: PortState)
      requires Valid()
      modifies this
      ensures Valid() && values == old(values)
      ensures writes == old(writes) +
        (if Primed(cam, plugin) then [] else Priming(PrimeCount) + Restoring(old(values), 0))
    {
      if Primed(cam, plugin) {
        return;
      }
      var saved := values;
      SetAll();
      RestoreAll(saved);
    }

    /** The setting half: every listed signal to its priming value, in order. */
    method SetAll()
      requires Valid()
      modifies this
      ensures Valid() && writes == old(writes) + Priming(PrimeCount)
      ensures forall s: Sig :: values[s] == PrimeValue(s)
    {
      var k := 0;
      while k < PrimeCount
        invariant 0 <= k <= PrimeCount
        invariant Valid()
        invariant writes == old(writes) + Priming(k)
        invariant forall s: Sig :: SigIndex(s) < k ==> values[s] == PrimeValue(s)
      {
        var s := PrimeSig(k);
        values := values[s := PrimeValue(s)];
        writes := writes + [(s, PrimeValue(s))];
        k := k + 1;
      }
    }

    /** The restoring half: every listed signal back to its saved value, in
        reverse order. */
    method RestoreAll(saved: map<Sig, real>)
      requires Valid() && forall s: Sig :: s in saved
      modifies this
      ensures Valid() && values == saved
      ensures writes == old(writes) + Restoring(saved, 0)
    {
      var k := PrimeCount;
      while k > 0
        invariant 0 <= k <= PrimeCount
        invariant Valid()
        invariant writes == old(writes) + Restoring(saved, k)
        invariant forall s: Sig :: SigIndex(s) >= k ==> values[s] == saved[s]
      {
        k := k - 1;
        var s := PrimeSig(k);
        assert Restoring(saved, k) == Restoring(saved, k + 1) + [(s, saved[s])];
        values := values[s := saved[s]];
        writes := writes + [(s, saved[s])];
      }
      assert forall s: Sig :: s in values && values[s] == saved[s];
    }
  }

  /** Every signal set while priming is restored later, and each is restored
      after all the settings: the restore of the signal set i-th comes at
      position 2·7 − 1 − i of the writes. */
  lemma RestoreMirrorsPriming(saved: map<Sig, real>, i: nat)
    requires forall s: Sig :: s in saved
    requires i < PrimeCount
    ensures var ws := Priming(PrimeCount) + Restoring(saved, 0);
      ws[i].0 == ws[2 * PrimeCount - 1 - i].0 &&
      ws[2 * PrimeCount - 1 - i].1 == saved[ws[i].0]
  {
  }
}
