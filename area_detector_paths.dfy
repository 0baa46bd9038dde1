// Area-detector utilities: picking the detectors out of the device registry,
// their file plugins, and the fixer that points a plugin's read-path
// template at the "/share1" mount.

module AreaDetectorPaths {
  import Text
  import opened FileTree

  /** A component of a detector: only its name and whether it is a file
      plugin matter here. */
  datatype Component = Component(name: string, isFilePlugin: bool)

  /** A registry entry: its name, whether it is an area detector, and its
      components in declaration order. */
  datatype Device = Device(name: string, isDetector: bool, components: seq<Component>)

  /** `all_area_detectors`: the registry entries that are detectors, in
      registry order. */
  function AllAreaDetectors(registry: seq<Device>): (ds: seq<Device>)
    ensures |ds| <= |registry|
    ensures forall i :: 0 <= i < |ds| ==> ds[i].isDetector
  {
    if registry == [] then []
    else
      var rest := AllAreaDetectors(registry[1..]);
      if registry[0].isDetector then [registry[0]] + rest else rest
  }

  /** An entry is picked exactly when it is in the registry and is a
      detector. */
  lemma {:induction false} AllAreaDetectorsMembers(registry: seq<Device>, d: Device)
    ensures d in AllAreaDetectors(registry) <==> d in registry && d.isDetector
  {
    if registry != [] {
      AllAreaDetectorsMembers(registry[1..], d);
      assert registry == [registry[0]] + registry[1..];
    }
  }

  /** Registry order is kept: the detectors of two registries one after the
      other are the detectors of the first followed by those of the second. */
  lemma {:induction false} AllAreaDetectorsAppend(a: seq<Device>, b: seq<Device>)
    ensures AllAreaDetectors(a + b) == AllAreaDetectors(a) + AllAreaDetectors(b)
  {
    if a == [] {
      assert a + b == b;
    } else {
      var x, tail := a[0], a[1..];
      assert a == [x] + tail;
      assert a + b == [x] + (tail + b);
      AllAreaDetectorsAppend(tail, b);
      AllAreaDetectorsCons(x, tail);
      AllAreaDetectorsCons(x, tail + b);
    }
  }

  lemma AllAreaDetectorsCons(x: Device, rest: seq<Device>)
    ensures AllAreaDetectors([x] + rest)
         == (if x.isDetector then [x] else []) + AllAreaDetectors(rest)
  {
    assert ([x] + rest)[1..] == rest;
  }

  /** `area_detector_file_plugins`: the detector's file-plugin components,
      in declaration order. */
  function FilePlugins(cs: seq<Component>): (ps: seq<Component>)
    ensures |ps| <= |cs|
    ensures forall i :: 0 <= i < |ps| ==> ps[i].isFilePlugin
  {
    if cs == [] then []
    else
      var rest := FilePlugins(cs[1..]);
      if cs[0].isFilePlugin then [cs[0]] + rest else rest
  }

  /** A component is yielded exactly when it is one of the detector's file
      plugins. */
  lemma {:induction false} FilePluginsMembers(cs: seq<Component>, c: Component)
    ensures c in FilePlugins(cs) <==> c in cs && c.isFilePlugin
  {
    if cs != [] {
      FilePluginsMembers(cs[1..], c);
      assert cs == [cs[0]] + cs[1..];
    }
  }

  lemma {:induction false} FilePluginsAppend(a: seq<Component>, b: seq<Component>)
    ensures FilePlugins(a + b) == FilePlugins(a) + FilePlugins(b)
  {
    if a == [] {
      assert a + b == b;
    } else {
      var x, tail := a[0], a[1..];
      assert a == [x] + tail;
      assert a + b == [x] + (tail + b);
      FilePluginsAppend(tail, b);
      FilePluginsCons(x, tail);
      FilePluginsCons(x, tail + b);
    }
  }

  lemma FilePluginsCons(x: Component, rest: seq<Component>)
    ensures FilePlugins([x] + rest)
         == (if x.isFilePlugin then [x] else []) + FilePlugins(rest)
  {
    assert ([x] + rest)[1..] == rest;
  }

  const DataFolder: string := "USAXS_data"
  const ReadMount: string := "/share1"

  /** Index of the first `x` in `s`. */
  function IndexOf(s: seq<string>, x: string): (k: nat)
    requires x in s
    ensures k < |s| && s[k] == x && forall i :: 0 <= i < k ==> s[i] != x
  {
    if s[0] == x then 0 else 1 + IndexOf(s[1..], x)
  }

  /** `str(pathlib.Path("/share1", *rest))` for names `rest`. */
  function UnderMount(rest: seq<string>): string
  {
    ReadMount + "/" + Text.Join("/", rest)
  }

  /** A file plugin's two path templates. */
  class FilePlugin {
    var writePathTemplate: string
    var readPathTemplate: string

    constructor(write: string, read: string)
      ensures writePathTemplate == write && readPathTemplate == read
    {
      writePathTemplate := write;
      readPathTemplate := read;
    }

    /** `path_template_fixer`, given the IOC's file path after calendar
        formatting: nothing changes unless "USAXS_data" is one of its
        components; then the write template is that path and the read
        template is "/share1" followed by the components from the first
        "USAXS_data" on. */
    method PathTemplateFixer(iocWritePath: string)
      modifies this
      ensures var parts := Parts(iocWritePath);
        if DataFolder in parts then
          writePathTemplate == iocWritePath &&
          readPathTemplate == UnderMount(parts[IndexOf(parts, DataFolder)..])
        else
          writePathTemplate == old(writePathTemplate) && readPathTemplate == old(readPathTemplate)
    {
      var parts := Parts(iocWritePath);
      if DataFolder in parts {
        writePathTemplate := iocWritePath;
        var idx := IndexOf(parts, DataFolder);
        readPathTemplate := UnderMount(parts[idx..]);
      }
    }
  }

  /** The rewritten read template, read back as a path, is "/", "share1"
      and then exactly the components of the IOC path from "USAXS_data"
      on: the rewrite keeps the folder structure below the data folder. */
  lemma ReadTemplateParts(iocWritePath: string)
    requires DataFolder in Parts(iocWritePath)
    ensures var parts := Parts(iocWritePath);
      Parts(UnderMount(parts[IndexOf(parts, DataFolder)..])) ==
        ["/", "share1"] + parts[IndexOf(parts, DataFolder)..]
  {
    var parts := Parts(iocWritePath);
    var idx := IndexOf(parts, DataFolder);
    var rest := parts[idx..];
    var names := Names(Text.Split(iocWritePath, '/'));
    var lead: seq<string> := if |iocWritePath| > 0 && iocWritePath[0] == '/' then ["/"] else [];
    assert parts == lead + names;
    assert idx >= |lead| by {
      if lead != [] { assert parts[0] == "/"; }
    }
    assert rest == names[idx - |lead|..];
    NamesNoSlash(Text.Split(iocWritePath, '/'));
    RestNames(rest);
  }

  /** The read template for names `rest` parses back to "/", "share1",
      `rest`. */
  lemma RestNames(rest: seq<string>)
    requires rest != []
    requires forall i :: 0 <= i < |rest| ==> '/' !in rest[i] && rest[i] != "" && rest[i] != "."
    ensures Parts(UnderMount(rest)) == ["/", "share1"] + rest
  {
    var all := ["", "share1"] + rest;
    UnderMountJoin(rest);
    assert forall i :: 0 <= i < |all| ==> '/' !in all[i];
    Text.SplitJoin(all, '/');
    LeadingNames(rest);
  }

  /** The mount and the names joined by slashes, as one join. */
  lemma UnderMountJoin(rest: seq<string>)
    requires rest != []
    ensures UnderMount(rest) == Text.Join("/", ["", "share1"] + rest)
  {
    var all := ["", "share1"] + rest;
    assert all[1..] == ["share1"] + rest;
    assert all[1..][1..] == rest;
    assert Text.Join("/", all[1..]) == "share1" + "/" + Text.Join("/", rest);
    assert Text.Join("/", all) == "" + "/" + Text.Join("/", all[1..]);
  }

  /** The names of the split mount path: the empty piece before the first
      slash is dropped, "share1" and the names are kept. */
  lemma LeadingNames(rest: seq<string>)
    requires forall i :: 0 <= i < |rest| ==> rest[i] != "" && rest[i] != "."
    ensures Names(["", "share1"] + rest) == ["share1"] + rest
  {
    var all := ["", "share1"] + rest;
    NamesOfNames(rest);
    assert all[1..] == ["share1"] + rest;
    assert all[1..][1..] == rest;
  }
}
