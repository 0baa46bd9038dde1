/** The NeXus structure manager of the fly scan: it reads the XML
    configuration once and keeps four registries (groups, fields, PVs and
    links) keyed by HDF5 path, names one ophyd signal per PV, and reports
    whether every signal is connected.  Both copies of the manager share
    this logic. */
module NexusStructure {
  import opened Wrappers
  import Text
  import opened OrderedDicts

  // ----- the configuration tree -----

  /** One element of the XML configuration.  Elements are listed in
      document order; `parent` is the index of the enclosing element and
      `text` the text of the element's `text` child, if it has one. */
  datatype Element = Element(tag: string, attrs: map<string, string>, text: Option<string>, parent: Option<nat>)

  datatype Config = Config(rootTag: string, elements: seq<Element>)

  /** The tag of an element's parent, if it has one. */
  function ParentTag(cfg: Config, i: nat): Option<string>
    requires i < |cfg.elements|
  {
    var p := cfg.elements[i].parent;
    if p.Some? && p.value < |cfg.elements| then Some(cfg.elements[p.value].tag) else None
  }

  /** `attrib.get(key, default)`. */
  function AttrOr(e: Element, key: string, default: string): string
  {
    if key in e.attrs then e.attrs[key] else default
  }

  /** The `string` and `acquire_after_scan` flags: true exactly when the
      lower-cased text is "t" or "true". */
  function IsTrue(text: string): (b: bool)
    ensures b <==> Text.Lower(text) in {"t", "true"}
  {
    Text.Lower(text) == "t" || Text.Lower(text) == "true"
  }

  /** The flags are case-blind, and a missing flag reads "false". */
  lemma IsTrueExamples()
    ensures IsTrue("TRUE") && IsTrue("T") && IsTrue("True")
    ensures !IsTrue("false") && !IsTrue("yes") && !IsTrue("1")
  {
    assert Text.Lower("TRUE") == "true";
    assert Text.Lower("T") == "t";
    assert Text.Lower("True") == "true";
    assert Text.Lower("false") == "false";
    assert Text.Lower("yes") == "yes";
    assert Text.Lower("1") == "1";
  }

  // ----- HDF5 paths -----

  predicate EndsWithSlash(p: string) { |p| > 0 && p[|p| - 1] == '/' }

  /** A child group's path: the parent path, a slash unless the parent
      path already ends in one, and the child's name. */
  function ChildPath(parent: string, name: string): (r: string)
    ensures |r| == |parent| + |name| + (if EndsWithSlash(parent) then 0 else 1)
    ensures r[|r| - |name|..] == name && r[..|parent|] == parent
    ensures r[|r| - |name| - 1] == '/'
  {
    (if EndsWithSlash(parent) then parent else parent + "/") + name
  }

  /** Field, PV and link paths, and relative length limits: parent path,
      "/", name, with no normalisation. */
  function Attached(parent: string, name: string): (r: string)
    ensures |r| == |parent| + 1 + |name|
    ensures r[..|parent|] == parent && r[|parent|] == '/' && r[|parent| + 1..] == name
  {
    parent + "/" + name
  }

  predicate EndsWith(s: string, suffix: string)
  {
    |suffix| <= |s| && s[|s| - |suffix|..] == suffix
  }

  predicate NoDoubleSlash(s: string)
  {
    forall i :: 0 <= i < |s| - 1 ==> !(s[i] == '/' && s[i + 1] == '/')
  }

  /** Joining a group path to a child name never makes "//", when neither
      part has one and the name does not start with a slash. */
  lemma ChildPathNoDoubleSlash(parent: string, name: string)
    requires NoDoubleSlash(parent) && NoDoubleSlash(name)
    requires name != [] && name[0] != '/'
    ensures NoDoubleSlash(ChildPath(parent, name))
  {
    var r := ChildPath(parent, name);
    var head := if EndsWithSlash(parent) then parent else parent + "/";
    assert r == head + name;
    forall i | 0 <= i < |r| - 1
      ensures !(r[i] == '/' && r[i + 1] == '/')
    {
      if i + 1 < |head| {
        assert r[i] == head[i] && r[i + 1] == head[i + 1];
        if i + 1 < |parent| {
          assert head[i] == parent[i] && head[i + 1] == parent[i + 1];
        } else {
          assert head[i] == parent[i] && parent[|parent| - 1] != '/';
        }
      } else if i + 1 == |head| {
        assert r[i + 1] == name[0];
      } else {
        assert r[i] == name[i - |head|] && r[i + 1] == name[i + 1 - |head|];
      }
    }
  }

  /** Unlike groups, a field, PV or link directly under the root group
      gets a path that starts with "//". */
  lemma AttachedUnderRoot(name: string)
    ensures Attached("/", name) == "//" + name
    ensures ChildPath("/", name) == "/" + name
  {
  }

  // ----- the registries -----

  /** A registered `group`: its XML element, name, NeXus class, HDF5 path
      and its parent group's path (None for the root group). */
  datatype GroupSpec = GroupSpec(node: nat, name: string, nxClass: string, path: string, parentPath: Option<string>)

  /** A registered `field`: the stripped text of its `text` child, or "". */
  datatype FieldSpec = FieldSpec(node: nat, name: string, path: string, parentPath: string, text: string)

  /** The ophyd signal made for a PV: a plain EpicsSignal when the PV name
      names a field (has a "."), otherwise one that also reads ".DESC". */
  datatype SignalKind = PlainSignal | SignalWithDesc
  datatype Signal = Signal(kind: SignalKind, pvname: string, name: string)

  datatype PvSpec = PvSpec(node: nat, pvLabel: string, pvname: string, asString: bool, acquireAfterScan: bool,
                           lengthLimit: Option<string>, path: string, parentPath: string, signal: Option<Signal>)

  datatype LinkSpec = LinkSpec(node: nat, name: string, source: string, path: string)

  datatype Registries = Registries(groups: Dict<string, GroupSpec>, fields: Dict<string, FieldSpec>,
                                   pvs: Dict<string, PvSpec>, links: Dict<string, LinkSpec>)

  const EmptyRegistries := Registries([], [], [], [])

  // ----- the order of paths -----

  /** Python's string order: `a < b` compares code points left to right,
      and a proper prefix comes first. */
  predicate Below(a: string, b: string)
  {
    if a == [] then b != [] else b != [] && (a[0] < b[0] || (a[0] == b[0] && Below(a[1..], b[1..])))
  }

  lemma {:induction false} BelowIrreflexive(a: string)
    ensures !Below(a, a)
  {
    if a != [] { BelowIrreflexive(a[1..]); }
  }

  lemma {:induction false} BelowAsymmetric(a: string, b: string)
    requires Below(a, b)
    ensures !Below(b, a)
  {
    if a != [] && b != [] && a[0] == b[0] { BelowAsymmetric(a[1..], b[1..]); }
  }

  lemma {:induction false} BelowTotal(a: string, b: string)
    ensures a == b || Below(a, b) || Below(b, a)
  {
    if a != [] && b != [] && a[0] == b[0] {
      BelowTotal(a[1..], b[1..]);
      if a[1..] == b[1..] {
        assert a == [a[0]] + a[1..] && b == [b[0]] + b[1..];
      }
    }
  }

  lemma {:induction false} BelowTransitive(a: string, b: string, c: string)
    requires Below(a, b) && Below(b, c)
    ensures Below(a, c)
  {
    if a != [] && a[0] == b[0] && b[0] == c[0] {
      BelowTransitive(a[1..], b[1..], c[1..]);
    }
  }

  /** A proper prefix comes first. */
  lemma {:induction false} PrefixBelow(p: string, s: string)
    requires |p| < |s| && s[..|p|] == p
    ensures Below(p, s)
  {
    if p != [] {
      assert s[1..][..|p| - 1] == p[1..];
      PrefixBelow(p[1..], s[1..]);
    }
  }

  /** A child group's path sorts after its parent's, unless the two are
      the same path. */
  lemma ChildPathBelow(parent: string, name: string)
    requires ChildPath(parent, name) != parent
    ensures Below(parent, ChildPath(parent, name))
  {
    PrefixBelow(parent, ChildPath(parent, name));
  }

  /** The group registry's invariant: no path twice, each group under its
      own path; the group with no parent is the root "/", and every other
      group sits under a registered parent whose path sorts before its
      own. */
  predicate GroupsValid(groups: Dict<string, GroupSpec>)
  {
    && DistinctKeys(groups)
    && (forall i :: 0 <= i < |groups| ==> groups[i].0 == groups[i].1.path)
    && (forall i :: 0 <= i < |groups| && groups[i].1.parentPath.None? ==> groups[i].0 == "/")
    && (forall i :: 0 <= i < |groups| && groups[i].1.parentPath.Some? ==>
          groups[i].1.parentPath.value in Keys(groups) && Below(groups[i].1.parentPath.value, groups[i].0) &&
          groups[i].0 == ChildPath(groups[i].1.parentPath.value, groups[i].1.name))
  }

  predicate FieldsValid(fields: Dict<string, FieldSpec>, groupPaths: seq<string>)
  {
    && DistinctKeys(fields)
    && (forall i :: 0 <= i < |fields| ==> fields[i].0 == fields[i].1.path)
    && (forall i :: 0 <= i < |fields| ==> fields[i].1.parentPath in groupPaths)
  }

  predicate PvsValid(pvs: Dict<string, PvSpec>, groupPaths: seq<string>)
  {
    && DistinctKeys(pvs)
    && (forall i :: 0 <= i < |pvs| ==> pvs[i].0 == pvs[i].1.path)
    && (forall i :: 0 <= i < |pvs| ==> pvs[i].1.parentPath in groupPaths)
  }

  predicate LinksValid(links: Dict<string, LinkSpec>)
  {
    DistinctKeys(links) && forall i :: 0 <= i < |links| ==> links[i].0 == links[i].1.path
  }

  /** The registries' invariant: each is keyed by its entries' own paths,
      with no key twice, and every parent path named is a registered
      group. */
  predicate Valid(r: Registries)
  {
    GroupsValid(r.groups) && FieldsValid(r.fields, Keys(r.groups)) && PvsValid(r.pvs, Keys(r.groups)) && LinksValid(r.links)
  }

  /** `getGroupObjectByXmlNode`: the first registered group made from the
      given element. */
  function GroupFor(groups: Dict<string, GroupSpec>, node: nat): (r: Option<GroupSpec>)
    ensures r.Some? ==> r.value.node == node && exists i :: 0 <= i < |groups| && groups[i].1 == r.value
    ensures r.None? ==> forall i :: 0 <= i < |groups| ==> groups[i].1.node != node
  {
    if groups == [] then None
    else if groups[0].1.node == node then Some(groups[0].1)
    else
      var r := GroupFor(groups[1..], node);
      assert forall i :: 1 <= i < |groups| ==> groups[i] == groups[1..][i - 1];
      r
  }

  /** The group registered for an element's parent element, if any. */
  function ParentGroup(cfg: Config, groups: Dict<string, GroupSpec>, i: nat): Option<GroupSpec>
    requires i < |cfg.elements|
  {
    var p := cfg.elements[i].parent;
    if p.None? then None else GroupFor(groups, p.value)
  }

  /** The message of a duplicate group path. */
  function DuplicateGroupMessage(g: GroupSpec): string
  {
    "Cannot create duplicate HDF5 path names: path=" + g.path + " name=" + g.name + " nx_class=" + g.nxClass
  }

  /** Adding a group: refused with RuntimeError when its path is already
      registered, which leaves the registry as it was. */
  function AddGroup(groups: Dict<string, GroupSpec>, g: GroupSpec): (r: Result<Dict<string, GroupSpec>>)
    ensures r.Ok? <==> g.path !in Keys(groups)
    ensures r.Ok? ==> (Keys(r.value) == Keys(groups) + [g.path] && Get(r.value, g.path) == Some(g) &&
      forall k :: k != g.path ==> Get(r.value, k) == Get(groups, k))
    ensures r.Err? ==> r.error == RuntimeError(DuplicateGroupMessage(g))
  {
    if g.path in Keys(groups) then Err(RuntimeError(DuplicateGroupMessage(g)))
    else
      var r := Put(groups, g.path, g);
      forall k { GetPut(groups, g.path, g, k); }
      Ok(r)
  }

  /** Where a group goes: its path and its parent group's path.  A group
      inside a group is placed under its parent's path; the group directly
      inside NX_structure is the root "/". */
  function GroupPlacement(cfg: Config, i: nat, groups: Dict<string, GroupSpec>, name: string): (r: Result<(string, Option<string>)>)
    requires i < |cfg.elements|
    ensures ParentTag(cfg, i) == Some("NX_structure") ==> r == Ok(("/", None))
    ensures ParentTag(cfg, i) == Some("group") && ParentGroup(cfg, groups, i).Some? ==>
      var p := ParentGroup(cfg, groups, i).value.path; r == Ok((ChildPath(p, name), Some(p)))
    ensures r.Ok? <==> (ParentTag(cfg, i) == Some("NX_structure") ||
      (ParentTag(cfg, i) == Some("group") && ParentGroup(cfg, groups, i).Some?))
  {
    var tag := ParentTag(cfg, i);
    if tag.None? then Err(AttributeError)
    else if tag.value == "group" then
      var pg := ParentGroup(cfg, groups, i);
      if pg.None? then Err(AttributeError)
      else Ok((ChildPath(pg.value.path, name), Some(pg.value.path)))
    else if tag.value == "NX_structure" then Ok(("/", None))
    else Err(TypeError)
  }

  /** `Group_Specification(node, manager)`: a new group under its own
      path; a path already registered raises RuntimeError. */
  function RegisterGroup(cfg: Config, i: nat, groups: Dict<string, GroupSpec>): (r: Result<Dict<string, GroupSpec>>)
    requires i < |cfg.elements|
    ensures r.Ok? ==> var e := cfg.elements[i];
      && "name" in e.attrs && "class" in e.attrs
      && var pl := GroupPlacement(cfg, i, groups, e.attrs["name"]);
      && pl.Ok? && pl.value.0 !in Keys(groups)
      && r.value == Put(groups, pl.value.0, GroupSpec(i, e.attrs["name"], e.attrs["class"], pl.value.0, pl.value.1))
    ensures var e := cfg.elements[i];
      ("name" in e.attrs && "class" in e.attrs && GroupPlacement(cfg, i, groups, e.attrs["name"]).Ok? &&
       GroupPlacement(cfg, i, groups, e.attrs["name"]).value.0 in Keys(groups)) ==> r.Err? && r.error.RuntimeError?
  {
    var e := cfg.elements[i];
    if "name" !in e.attrs then Err(KeyError("name"))
    else if "class" !in e.attrs then Err(KeyError("class"))
    else
      var name := e.attrs["name"];
      var pl := GroupPlacement(cfg, i, groups, name);
      if pl.Err? then Err(pl.error)
      else AddGroup(groups, GroupSpec(i, name, e.attrs["class"], pl.value.0, pl.value.1))
  }

  /** `Field_Specification(node, manager)`. */
  function RegisterField(cfg: Config, i: nat, groups: Dict<string, GroupSpec>, fields: Dict<string, FieldSpec>): (r: Result<Dict<string, FieldSpec>>)
    requires i < |cfg.elements|
    ensures r.Ok? <==> "name" in cfg.elements[i].attrs && ParentGroup(cfg, groups, i).Some?
    ensures r.Ok? ==> var p := ParentGroup(cfg, groups, i).value.path; var name := cfg.elements[i].attrs["name"];
      Get(r.value, Attached(p, name)).Some? && Get(r.value, Attached(p, name)).value.parentPath == p
  {
    var e := cfg.elements[i];
    var pg := ParentGroup(cfg, groups, i);
    if "name" !in e.attrs then Err(KeyError("name"))
    else if pg.None? then Err(AttributeError)
    else
      var name := e.attrs["name"];
      var path := Attached(pg.value.path, name);
      var text := if e.text.None? then "" else Text.Strip(e.text.value);
      GetPut(fields, path, FieldSpec(i, name, path, pg.value.path, text), path);
      Ok(Put(fields, path, FieldSpec(i, name, path, pg.value.path, text)))
  }

  /** The PV label check as the code writes it: the label is looked up
      among the keys of the PV registry, which are HDF5 paths. */
  predicate LabelTakenAsWritten(pvs: Dict<string, PvSpec>, pvLabel: string)
  {
    pvLabel in Keys(pvs)
  }

  /** The evidently intended check: the PV's own path is already taken.
      The registry is keyed by HDF5 path and later read back by path, so the
      check is read as keeping one entry from overwriting another; PVs with
      the same label in different groups become distinct datasets and pass.
      A "node/@label" comment beside the registry suggests a file-wide label
      key, but the registration itself stores the path. */
  predicate LabelTaken(pvs: Dict<string, PvSpec>, parentPath: string, pvLabel: string)
  {
    Attached(parentPath, pvLabel) in Keys(pvs)
  }

  /** A relative `length_limit` is made absolute under the parent group. */
  function AbsoluteLimit(parentPath: string, limit: string): (r: string)
    ensures |limit| > 0 && limit[0] == '/' ==> r == limit
    ensures !(|limit| > 0 && limit[0] == '/') ==> r == Attached(parentPath, limit)
  {
    if |limit| > 0 && limit[0] == '/' then limit else Attached(parentPath, limit)
  }

  /** The length limit is absolute whenever the parent group's path is. */
  lemma AbsoluteLimitIsAbsolute(parentPath: string, limit: string)
    requires |parentPath| > 0 && parentPath[0] == '/'
    ensures var r := AbsoluteLimit(parentPath, limit); |r| > 0 && r[0] == '/'
  {
  }

  /** The PV described by a `PV` element under a known parent group. */
  function MakePv(e: Element, i: nat, parentPath: string): (pv: PvSpec)
    requires "label" in e.attrs && "pvname" in e.attrs
    ensures pv.path == Attached(parentPath, e.attrs["label"]) && pv.parentPath == parentPath && pv.signal.None?
    ensures pv.acquireAfterScan <==> Text.Lower(AttrOr(e, "acquire_after_scan", "false")) in {"t", "true"}
    ensures pv.asString <==> Text.Lower(AttrOr(e, "string", "false")) in {"t", "true"}
    ensures "length_limit" !in e.attrs ==> pv.lengthLimit.None?
    ensures "length_limit" in e.attrs ==> pv.lengthLimit == Some(AbsoluteLimit(parentPath, e.attrs["length_limit"]))
  {
    var pvLabel := e.attrs["label"];
    PvSpec(i, pvLabel, e.attrs["pvname"], IsTrue(AttrOr(e, "string", "false")),
           IsTrue(AttrOr(e, "acquire_after_scan", "false")),
           if "length_limit" in e.attrs then Some(AbsoluteLimit(parentPath, e.attrs["length_limit"])) else None,
           Attached(parentPath, pvLabel), parentPath, None)
  }

  /** Which duplicate and link-type checks the constructors make: the code's
      own (`AsWritten`), or the evidently intended ones (`Intended`), which
      the structure manager uses. */
  datatype Checks = AsWritten | Intended

  /** Whether a PV label counts as used already, under either check. */
  predicate PvLabelUsed(c: Checks, pvs: Dict<string, PvSpec>, parentPath: string, pvLabel: string)
  {
    match c
    case AsWritten => LabelTakenAsWritten(pvs, pvLabel)
    case Intended => LabelTaken(pvs, parentPath, pvLabel)
  }

  /** `PV_Specification(node, manager)`: a used label raises RuntimeError,
      otherwise the PV is registered under its own path. */
  function RegisterPv(c: Checks, cfg: Config, i: nat, groups: Dict<string, GroupSpec>, pvs: Dict<string, PvSpec>): (r: Result<Dict<string, PvSpec>>)
    requires i < |cfg.elements|
    ensures var e := cfg.elements[i]; var pg := ParentGroup(cfg, groups, i);
      r.Ok? <==> "label" in e.attrs && "pvname" in e.attrs && pg.Some? && !PvLabelUsed(c, pvs, pg.value.path, e.attrs["label"])
    ensures var e := cfg.elements[i]; var pg := ParentGroup(cfg, groups, i);
      "label" in e.attrs && "pvname" in e.attrs && pg.Some? && PvLabelUsed(c, pvs, pg.value.path, e.attrs["label"]) ==>
      r == Err(RuntimeError("Cannot use PV label more than once: " + e.attrs["label"]))
    ensures r.Ok? ==> var e := cfg.elements[i]; var p := ParentGroup(cfg, groups, i).value.path;
      r.value == Put(pvs, Attached(p, e.attrs["label"]), MakePv(e, i, p))
    ensures r.Ok? && c == Intended ==> var e := cfg.elements[i]; var p := ParentGroup(cfg, groups, i).value.path;
      r.value == pvs + [(Attached(p, e.attrs["label"]), MakePv(e, i, p))]
  {
    var e := cfg.elements[i];
    var pg := ParentGroup(cfg, groups, i);
    RegisterPvOutcome(c, e, i, pg, pvs);
    RegisterPvUnder(c, e, i, pg, pvs)
  }

  /** The checks of `PV_Specification` for element `e`, whose parent group
      lookup gave `pg`, in the order the constructor makes them. */
  function RegisterPvUnder(c: Checks, e: Element, i: nat, pg: Option<GroupSpec>, pvs: Dict<string, PvSpec>): Result<Dict<string, PvSpec>>
  {
    if "label" !in e.attrs then Err(KeyError("label"))
    else if c == AsWritten && LabelTakenAsWritten(pvs, e.attrs["label"]) then
      Err(RuntimeError("Cannot use PV label more than once: " + e.attrs["label"]))
    else if "pvname" !in e.attrs then Err(KeyError("pvname"))
    else if pg.None? then Err(AttributeError)
    else if c == Intended && LabelTaken(pvs, pg.value.path, e.attrs["label"]) then
      Err(RuntimeError("Cannot use PV label more than once: " + e.attrs["label"]))
    else Ok(Put(pvs, Attached(pg.value.path, e.attrs["label"]), MakePv(e, i, pg.value.path)))
  }

  /** The outcome of the checks, case by case. */
  lemma RegisterPvOutcome(c: Checks, e: Element, i: nat, pg: Option<GroupSpec>, pvs: Dict<string, PvSpec>)
    ensures var r := RegisterPvUnder(c, e, i, pg, pvs);
      && (r.Ok? <==> "label" in e.attrs && "pvname" in e.attrs && pg.Some? && !PvLabelUsed(c, pvs, pg.value.path, e.attrs["label"]))
      && ("label" in e.attrs && "pvname" in e.attrs && pg.Some? && PvLabelUsed(c, pvs, pg.value.path, e.attrs["label"]) ==>
            r == Err(RuntimeError("Cannot use PV label more than once: " + e.attrs["label"])))
      && (r.Ok? ==> r.value == Put(pvs, Attached(pg.value.path, e.attrs["label"]), MakePv(e, i, pg.value.path)))
      && (r.Ok? && c == Intended ==> r.value == pvs + [(Attached(pg.value.path, e.attrs["label"]), MakePv(e, i, pg.value.path))])
  {
    if "label" in e.attrs && "pvname" in e.attrs && pg.Some? {
      var pvLabel := e.attrs["label"];
      if c == Intended && !LabelTaken(pvs, pg.value.path, pvLabel) {
        PutAbsent(pvs, Attached(pg.value.path, pvLabel), MakePv(e, i, pg.value.path));
      }
    }
  }

  /** The evidently intended link check: a link type other than "NeXus"
      raises RuntimeError naming the link type and the link's path. */
  function LinkTypeCheck(linktype: string, path: string): (r: Option<Error>)
    ensures r.None? <==> linktype == "NeXus"
    ensures r.Some? ==> r.value.RuntimeError? && EndsWith(r.value.msg, path)
  {
    if linktype == "NeXus" then None
    else Some(RuntimeError("Cannot create HDF5 " + linktype + " link: " + path))
  }

  /** `Link_Specification(node, manager)`.  As written, a link type other
      than "NeXus" reaches the error message, which reads the link's path
      before it is set, so AttributeError is raised; the intended check
      raises the RuntimeError of `LinkTypeCheck`. */
  function RegisterLink(c: Checks, cfg: Config, i: nat, groups: Dict<string, GroupSpec>, links: Dict<string, LinkSpec>): (r: Result<Dict<string, LinkSpec>>)
    requires i < |cfg.elements|
    ensures var e := cfg.elements[i];
      r.Ok? <==> "name" in e.attrs && "source" in e.attrs && AttrOr(e, "linktype", "NeXus") == "NeXus" &&
                 ParentGroup(cfg, groups, i).Some?
    ensures var e := cfg.elements[i];
      c == AsWritten && "name" in e.attrs && "source" in e.attrs && AttrOr(e, "linktype", "NeXus") != "NeXus" ==> r == Err(AttributeError)
    ensures var e := cfg.elements[i]; var pg := ParentGroup(cfg, groups, i);
      c == Intended && "name" in e.attrs && "source" in e.attrs && pg.Some? && AttrOr(e, "linktype", "NeXus") != "NeXus" ==>
      r == Err(LinkTypeCheck(AttrOr(e, "linktype", "NeXus"), Attached(pg.value.path, e.attrs["name"])).value)
    ensures r.Ok? ==> var e := cfg.elements[i]; var path := Attached(ParentGroup(cfg, groups, i).value.path, e.attrs["name"]);
      Get(r.value, path) == Some(LinkSpec(i, e.attrs["name"], e.attrs["source"], path))
  {
    var e := cfg.elements[i];
    if "name" !in e.attrs then Err(KeyError("name"))
    else if "source" !in e.attrs then Err(KeyError("source"))
    else if c == AsWritten && AttrOr(e, "linktype", "NeXus") != "NeXus" then Err(AttributeError)
    else
      var pg := ParentGroup(cfg, groups, i);
      if pg.None? then Err(AttributeError)
      else
        var path := Attached(pg.value.path, e.attrs["name"]);
        var check := LinkTypeCheck(AttrOr(e, "linktype", "NeXus"), path);
        if check.Some? then Err(check.value)
        else
          var link := LinkSpec(i, e.attrs["name"], e.attrs["source"], path);
          GetPut(links, path, link, path);
          Ok(Put(links, path, link))
  }

  /** The four kinds of element, registered in this order. */
  datatype Kind = GroupKind | FieldKind | PvKind | LinkKind

  function TagOf(k: Kind): string
  {
    match k
    case GroupKind => "group"
    case FieldKind => "field"
    case PvKind => "PV"
    case LinkKind => "link"
  }

  /** Registering element `i` as one of `kind`. */
  function Register(cfg: Config, kind: Kind, i: nat, r: Registries): Result<Registries>
    requires i < |cfg.elements|
  {
    match kind
    case GroupKind =>
      var g := RegisterGroup(cfg, i, r.groups);
      if g.Err? then Err(g.error) else Ok(r.(groups := g.value))
    case FieldKind =>
      var f := RegisterField(cfg, i, r.groups, r.fields);
      if f.Err? then Err(f.error) else Ok(r.(fields := f.value))
    case PvKind =>
      var p := RegisterPv(Intended, cfg, i, r.groups, r.pvs);
      if p.Err? then Err(p.error) else Ok(r.(pvs := p.value))
    case LinkKind =>
      var l := RegisterLink(Intended, cfg, i, r.groups, r.links);
      if l.Err? then Err(l.error) else Ok(r.(links := l.value))
  }

  /** Registering every element of `kind` from index `i` on, in document
      order; the first error stops the pass and keeps what was registered
      before it. */
  function RegisterFrom(cfg: Config, kind: Kind, i: nat, r: Registries): (Registries, Option<Error>)
    decreases |cfg.elements| - i
  {
    if i >= |cfg.elements| then (r, None)
    else if cfg.elements[i].tag != TagOf(kind) then RegisterFrom(cfg, kind, i + 1, r)
    else
      var next := Register(cfg, kind, i, r);
      if next.Err? then (r, Some(next.error)) else RegisterFrom(cfg, kind, i + 1, next.value)
  }

  /** One step of a registration pass. */
  lemma RegisterFromStep(cfg: Config, kind: Kind, i: nat, r: Registries)
    requires i < |cfg.elements|
    ensures cfg.elements[i].tag != TagOf(kind) ==> RegisterFrom(cfg, kind, i, r) == RegisterFrom(cfg, kind, i + 1, r)
    ensures cfg.elements[i].tag == TagOf(kind) && Register(cfg, kind, i, r).Err? ==>
      RegisterFrom(cfg, kind, i, r) == (r, Some(Register(cfg, kind, i, r).error))
    ensures cfg.elements[i].tag == TagOf(kind) && Register(cfg, kind, i, r).Ok? ==>
      RegisterFrom(cfg, kind, i, r) == RegisterFrom(cfg, kind, i + 1, Register(cfg, kind, i, r).value)
  {
  }

  const NotSaveFlyData := "XML file not valid for configuring saveFlyData"

  /** `_read_configuration` after schema validation: the root must be
      saveFlyData; then all groups, all fields, all PVs, all links. */
  function Configure(cfg: Config, r: Registries): (Registries, Option<Error>)
  {
    if cfg.rootTag != "saveFlyData" then (r, Some(RuntimeError(NotSaveFlyData)))
    else
      var (r1, e1) := RegisterFrom(cfg, GroupKind, 0, r);
      if e1.Some? then (r1, e1) else
      var (r2, e2) := RegisterFrom(cfg, FieldKind, 0, r1);
      if e2.Some? then (r2, e2) else
      var (r3, e3) := RegisterFrom(cfg, PvKind, 0, r2);
      if e3.Some? then (r3, e3) else
      RegisterFrom(cfg, LinkKind, 0, r3)
  }

  /** Keys present before an assignment are present after it. */
  lemma PutKeeps<V>(d: Dict<string, V>, k: string, v: V)
    ensures forall x :: x in Keys(d) ==> x in Keys(Put(d, k, v))
    ensures k in Keys(Put(d, k, v))
  {
  }

  /** Every item of `Put(d, k, v)` keyed by its value's path, when `d`'s
      are and `k` is `v`'s path. */
  lemma PutKeyedByPath<V>(d: Dict<string, V>, k: string, v: V, path: V -> string)
    requires forall i :: 0 <= i < |d| ==> d[i].0 == path(d[i].1)
    requires k == path(v)
    ensures forall i :: 0 <= i < |Put(d, k, v)| ==> Put(d, k, v)[i].0 == path(Put(d, k, v)[i].1)
  {
    var r := Put(d, k, v);
    PutEntries(d, k, v);
    forall i | 0 <= i < |r| ensures r[i].0 == path(r[i].1) {
      assert r[i] in r;
    }
  }

  /** The parent group found for an element is registered under its own
      path. */
  lemma ParentGroupRegistered(cfg: Config, i: nat, r: Registries)
    requires i < |cfg.elements| && Valid(r)
    ensures ParentGroup(cfg, r.groups, i).Some? ==> ParentGroup(cfg, r.groups, i).value.path in Keys(r.groups)
  {
    var pg := ParentGroup(cfg, r.groups, i);
    if pg.Some? {
      var j :| 0 <= j < |r.groups| && r.groups[j].1 == pg.value;
      assert Keys(r.groups)[j] == r.groups[j].0;
    }
  }

  /** Adding a group whose parent is registered keeps the group registry
      valid and keeps every path it had. */
  lemma PutGroupValid(groups: Dict<string, GroupSpec>, spec: GroupSpec)
    requires GroupsValid(groups)
    requires spec.parentPath.None? ==> spec.path == "/"
    requires spec.parentPath.Some? ==> (spec.parentPath.value in Keys(groups) && Below(spec.parentPath.value, spec.path) &&
      spec.path == ChildPath(spec.parentPath.value, spec.name))
    ensures GroupsValid(Put(groups, spec.path, spec))
    ensures forall k :: k in Keys(groups) ==> k in Keys(Put(groups, spec.path, spec))
  {
    var n := Put(groups, spec.path, spec);
    PutDistinct(groups, spec.path, spec);
    PutKeeps(groups, spec.path, spec);
    PutKeyedByPath(groups, spec.path, spec, (s: GroupSpec) => s.path);
    PutEntries(groups, spec.path, spec);
    forall k | 0 <= k < |n|
      ensures n[k].1.parentPath.None? ==> n[k].0 == "/"
      ensures n[k].1.parentPath.Some? ==> (n[k].1.parentPath.value in Keys(n) && Below(n[k].1.parentPath.value, n[k].0) &&
        n[k].0 == ChildPath(n[k].1.parentPath.value, n[k].1.name))
    {
      assert n[k] in n;
      if n[k] != (spec.path, spec) {
        var m :| 0 <= m < |groups| && groups[m] == n[k];
      }
    }
  }

  lemma RegisterGroupValid(cfg: Config, i: nat, r: Registries)
    requires i < |cfg.elements| && Valid(r)
    requires RegisterGroup(cfg, i, r.groups).Ok?
    ensures Valid(r.(groups := RegisterGroup(cfg, i, r.groups).value))
  {
    var e := cfg.elements[i];
    ParentGroupRegistered(cfg, i, r);
    var pl := GroupPlacement(cfg, i, r.groups, e.attrs["name"]).value;
    var spec := GroupSpec(i, e.attrs["name"], e.attrs["class"], pl.0, pl.1);
    assert pl.1.Some? ==> pl.1.value in Keys(r.groups);
    assert pl.0 !in Keys(r.groups);
    if pl.1.Some? {
      assert pl.0 == ChildPath(pl.1.value, e.attrs["name"]);
      assert pl.0 != pl.1.value;
      ChildPathBelow(pl.1.value, e.attrs["name"]);
    }
    var n := Put(r.groups, pl.0, spec);
    assert RegisterGroup(cfg, i, r.groups).value == n;
    PutGroupValid(r.groups, spec);
    FieldsUnderMore(r.fields, Keys(r.groups), Keys(n));
    PvsUnderMore(r.pvs, Keys(r.groups), Keys(n));
  }

  lemma FieldsUnderMore(fields: Dict<string, FieldSpec>, ks: seq<string>, ks': seq<string>)
    requires FieldsValid(fields, ks) && forall k :: k in ks ==> k in ks'
    ensures FieldsValid(fields, ks')
  {
  }

  lemma PvsUnderMore(pvs: Dict<string, PvSpec>, ks: seq<string>, ks': seq<string>)
    requires PvsValid(pvs, ks) && forall k :: k in ks ==> k in ks'
    ensures PvsValid(pvs, ks')
  {
  }

  lemma RegisterFieldValid(cfg: Config, i: nat, r: Registries)
    requires i < |cfg.elements| && Valid(r)
    requires RegisterField(cfg, i, r.groups, r.fields).Ok?
    ensures Valid(r.(fields := RegisterField(cfg, i, r.groups, r.fields).value))
  {
    var e := cfg.elements[i];
    var pg := ParentGroup(cfg, r.groups, i);
    ParentGroupRegistered(cfg, i, r);
    var f := RegisterField(cfg, i, r.groups, r.fields);
    var path := Attached(pg.value.path, e.attrs["name"]);
    var text := if e.text.None? then "" else Text.Strip(e.text.value);
    var spec := FieldSpec(i, e.attrs["name"], path, pg.value.path, text);
    assert f.value == Put(r.fields, path, spec);
    FieldsValidPut(r.fields, Keys(r.groups), path, spec);
  }

  lemma RegisterPvValid(cfg: Config, i: nat, r: Registries)
    requires i < |cfg.elements| && Valid(r)
    requires RegisterPv(Intended, cfg, i, r.groups, r.pvs).Ok?
    ensures Valid(r.(pvs := RegisterPv(Intended, cfg, i, r.groups, r.pvs).value))
  {
    var e := cfg.elements[i];
    var pg := ParentGroup(cfg, r.groups, i);
    ParentGroupRegistered(cfg, i, r);
    var p := RegisterPv(Intended, cfg, i, r.groups, r.pvs);
    var spec := MakePv(e, i, pg.value.path);
    var path := Attached(pg.value.path, e.attrs["label"]);
    assert p.value == Put(r.pvs, path, spec);
    PvsValidPut(r.pvs, Keys(r.groups), path, spec);
  }

  /** Assigning a field under its own path, below a registered group,
      keeps the field registry valid. */
  lemma FieldsValidPut(fields: Dict<string, FieldSpec>, ks: seq<string>, k: string, v: FieldSpec)
    requires FieldsValid(fields, ks) && k == v.path && v.parentPath in ks
    ensures FieldsValid(Put(fields, k, v), ks)
  {
    PutDistinct(fields, k, v);
    PutKeyedByPath(fields, k, v, (s: FieldSpec) => s.path);
    PutParentsIn(fields, k, v, (s: FieldSpec) => s.parentPath, ks);
  }

  /** Assigning a PV under its own path, below a registered group, keeps
      the PV registry valid. */
  lemma PvsValidPut(pvs: Dict<string, PvSpec>, ks: seq<string>, k: string, v: PvSpec)
    requires PvsValid(pvs, ks) && k == v.path && v.parentPath in ks
    ensures PvsValid(Put(pvs, k, v), ks)
  {
    PutDistinct(pvs, k, v);
    PutKeyedByPath(pvs, k, v, (s: PvSpec) => s.path);
    PutParentsIn(pvs, k, v, (s: PvSpec) => s.parentPath, ks);
  }

  /** Every value of `Put(d, k, v)` names a parent in `ks`, when `d`'s
      values and `v` do. */
  lemma PutParentsIn<V>(d: Dict<string, V>, k: string, v: V, parent: V -> string, ks: seq<string>)
    requires forall i :: 0 <= i < |d| ==> parent(d[i].1) in ks
    requires parent(v) in ks
    ensures forall i :: 0 <= i < |Put(d, k, v)| ==> parent(Put(d, k, v)[i].1) in ks
  {
    var r := Put(d, k, v);
    PutEntries(d, k, v);
    forall i | 0 <= i < |r| ensures parent(r[i].1) in ks {
      assert r[i] in r;
    }
  }

  lemma RegisterLinkValid(cfg: Config, i: nat, r: Registries)
    requires i < |cfg.elements| && Valid(r)
    requires RegisterLink(Intended, cfg, i, r.groups, r.links).Ok?
    ensures Valid(r.(links := RegisterLink(Intended, cfg, i, r.groups, r.links).value))
  {
    var e := cfg.elements[i];
    var pg := ParentGroup(cfg, r.groups, i);
    var l := RegisterLink(Intended, cfg, i, r.groups, r.links);
    var path := Attached(pg.value.path, e.attrs["name"]);
    var link := LinkSpec(i, e.attrs["name"], e.attrs["source"], path);
    assert l.value == Put(r.links, path, link);
    PutDistinct(r.links, path, link);
    PutKeyedByPath(r.links, path, link, (s: LinkSpec) => s.path);
  }

  /** Registering one element keeps the registries valid. */
  lemma RegisterValid(cfg: Config, kind: Kind, i: nat, r: Registries)
    requires i < |cfg.elements| && Valid(r)
    ensures Register(cfg, kind, i, r).Ok? ==> Valid(Register(cfg, kind, i, r).value)
  {
    match kind
    case GroupKind =>
      var g := RegisterGroup(cfg, i, r.groups);
      if g.Ok? {
        RegisterGroupValid(cfg, i, r);
        assert Register(cfg, kind, i, r) == Ok(r.(groups := g.value));
      }
    case FieldKind =>
      var f := RegisterField(cfg, i, r.groups, r.fields);
      if f.Ok? {
        RegisterFieldValid(cfg, i, r);
        assert Register(cfg, kind, i, r) == Ok(r.(fields := f.value));
      }
    case PvKind =>
      var p := RegisterPv(Intended, cfg, i, r.groups, r.pvs);
      if p.Ok? {
        RegisterPvValid(cfg, i, r);
        assert Register(cfg, kind, i, r) == Ok(r.(pvs := p.value));
      }
    case LinkKind =>
      var l := RegisterLink(Intended, cfg, i, r.groups, r.links);
      if l.Ok? {
        RegisterLinkValid(cfg, i, r);
        assert Register(cfg, kind, i, r) == Ok(r.(links := l.value));
      }
  }

  lemma {:induction false} RegisterFromValid(cfg: Config, kind: Kind, i: nat, r: Registries)
    requires Valid(r)
    ensures Valid(RegisterFrom(cfg, kind, i, r).0)
    decreases |cfg.elements| - i
  {
    if i < |cfg.elements| {
      if cfg.elements[i].tag != TagOf(kind) {
        RegisterFromValid(cfg, kind, i + 1, r);
        assert RegisterFrom(cfg, kind, i, r) == RegisterFrom(cfg, kind, i + 1, r);
      } else {
        var next := Register(cfg, kind, i, r);
        if next.Ok? {
          RegisterValid(cfg, kind, i, r);
          RegisterFromValid(cfg, kind, i + 1, next.value);
          assert RegisterFrom(cfg, kind, i, r) == RegisterFrom(cfg, kind, i + 1, next.value);
        } else {
          assert RegisterFrom(cfg, kind, i, r) == (r, Some(next.error));
        }
      }
    }
  }

  /** Reading a configuration, successfully or not, leaves the registries
      valid: no path is registered twice, every entry sits under its own
      path, and every parent group is registered. */
  lemma ConfigureValid(cfg: Config, r: Registries)
    requires Valid(r)
    ensures Valid(Configure(cfg, r).0)
  {
    if cfg.rootTag == "saveFlyData" {
      var (r1, e1) := RegisterFrom(cfg, GroupKind, 0, r);
      RegisterFromValid(cfg, GroupKind, 0, r);
      if e1.None? {
        var (r2, e2) := RegisterFrom(cfg, FieldKind, 0, r1);
        RegisterFromValid(cfg, FieldKind, 0, r1);
        if e2.None? {
          var (r3, e3) := RegisterFrom(cfg, PvKind, 0, r2);
          RegisterFromValid(cfg, PvKind, 0, r2);
          if e3.None? {
            RegisterFromValid(cfg, LinkKind, 0, r3);
            assert Configure(cfg, r) == RegisterFrom(cfg, LinkKind, 0, r3);
          } else {
            assert Configure(cfg, r) == (r3, e3);
          }
        } else {
          assert Configure(cfg, r) == (r2, e2);
        }
      } else {
        assert Configure(cfg, r) == (r1, e1);
      }
    }
  }

  /** A configuration with two `group` elements directly in NX_structure
      fails with RuntimeError: both would be the root "/". */
  lemma TwoRootsRejected()
    ensures var nx := Element("NX_structure", map[], None, None);
      var g := Element("group", map["name" := "entry", "class" := "NXentry"], None, Some(0));
      var cfg := Config("saveFlyData", [nx, g, g]);
      Configure(cfg, EmptyRegistries).1.Some? && Configure(cfg, EmptyRegistries).1.value.RuntimeError?
  {
    var nx := Element("NX_structure", map[], None, None);
    var g := Element("group", map["name" := "entry", "class" := "NXentry"], None, Some(0));
    var cfg := Config("saveFlyData", [nx, g, g]);
    var root := GroupSpec(1, "entry", "NXentry", "/", None);
    assert RegisterFrom(cfg, GroupKind, 0, EmptyRegistries) == RegisterFrom(cfg, GroupKind, 1, EmptyRegistries);
    assert RegisterGroup(cfg, 1, []) == Ok([("/", root)]);
    var r1 := EmptyRegistries.(groups := [("/", root)]);
    assert RegisterFrom(cfg, GroupKind, 1, EmptyRegistries) == RegisterFrom(cfg, GroupKind, 2, r1);
    assert "/" in Keys(r1.groups);
    assert RegisterGroup(cfg, 2, r1.groups).Err?;
  }

  /** The label check as written lets a second PV with the same label in
      the same group through: the registry keys are paths, never bare
      labels, and the second PV silently replaces the first.  The intended
      check refuses it. */
  lemma DuplicatePvLabelAccepted()
    ensures var parent := Element("group", map["name" := "entry", "class" := "NXentry"], None, None);
      var pv := Element("PV", map["label" := "x", "pvname" := "a:b"], None, Some(0));
      var groups := [("/", GroupSpec(0, "entry", "NXentry", "/", None))];
      var cfg := Config("saveFlyData", [parent, pv, pv]);
      var once := RegisterPv(AsWritten, cfg, 1, groups, []);
      once.Ok? && RegisterPv(AsWritten, cfg, 2, groups, once.value).Ok? &&
      |RegisterPv(AsWritten, cfg, 2, groups, once.value).value| == 1 &&
      RegisterPv(Intended, cfg, 1, groups, []) == once &&
      RegisterPv(Intended, cfg, 2, groups, once.value) == Err(RuntimeError("Cannot use PV label more than once: x"))
  {
    var parent := Element("group", map["name" := "entry", "class" := "NXentry"], None, None);
    var pv := Element("PV", map["label" := "x", "pvname" := "a:b"], None, Some(0));
    var groups := [("/", GroupSpec(0, "entry", "NXentry", "/", None))];
    var cfg := Config("saveFlyData", [parent, pv, pv]);
    assert GroupFor(groups, 0) == Some(groups[0].1);
    assert ParentGroup(cfg, groups, 1) == Some(groups[0].1);
    assert ParentGroup(cfg, groups, 2) == Some(groups[0].1);
    assert Attached("/", "x") == "//x";
    var once := RegisterPv(AsWritten, cfg, 1, groups, []);
    assert once == Ok([("//x", MakePv(pv, 1, "/"))]);
    assert Keys(once.value) == ["//x"];
    assert "x" != "//x";
    assert !LabelTakenAsWritten(once.value, "x");
    assert !LabelTaken([], "/", "x");
    assert RegisterPv(Intended, cfg, 1, groups, []) == once;
    assert LabelTaken(once.value, "/", "x");
    assert cfg.elements[2].attrs["label"] == "x" && "pvname" in cfg.elements[2].attrs;
    assert "Cannot use PV label more than once: " + "x" == "Cannot use PV label more than once: x";
  }

  /** The intended check refuses exactly the PVs whose path is taken:
      labels are unique per HDF5 path (per group), not across the file. */
  lemma LabelTakenIsPathTaken(pvs: Dict<string, PvSpec>, parentPath: string, pvLabel: string)
    requires forall i :: 0 <= i < |pvs| ==> pvs[i].0 == pvs[i].1.path
    ensures LabelTaken(pvs, parentPath, pvLabel) <==>
      exists i :: 0 <= i < |pvs| && pvs[i].1.path == Attached(parentPath, pvLabel)
  {
    if LabelTaken(pvs, parentPath, pvLabel) {
      var k := Attached(parentPath, pvLabel);
      var i :| 0 <= i < |pvs| && Keys(pvs)[i] == k;
      assert pvs[i].1.path == k;
    }
    if exists i :: 0 <= i < |pvs| && pvs[i].1.path == Attached(parentPath, pvLabel) {
      var i :| 0 <= i < |pvs| && pvs[i].1.path == Attached(parentPath, pvLabel);
      assert Keys(pvs)[i] == pvs[i].0;
    }
  }

  /** A non-NeXus link raises AttributeError as written; the intended
      check raises RuntimeError for the same link. */
  lemma HdfLinkTypeRaises()
    ensures var parent := Element("group", map["name" := "entry", "class" := "NXentry"], None, None);
      var link := Element("link", map["name" := "data", "source" := "/entry/x", "linktype" := "HDF5"], None, Some(0));
      var groups := [("/", GroupSpec(0, "entry", "NXentry", "/", None))];
      var cfg := Config("saveFlyData", [parent, link]);
      RegisterLink(AsWritten, cfg, 1, groups, []) == Err(AttributeError) &&
      RegisterLink(Intended, cfg, 1, groups, []) == Err(RuntimeError("Cannot create HDF5 HDF5 link: //data"))
  {
    var parent := Element("group", map["name" := "entry", "class" := "NXentry"], None, None);
    var link := Element("link", map["name" := "data", "source" := "/entry/x", "linktype" := "HDF5"], None, Some(0));
    var groups := [("/", GroupSpec(0, "entry", "NXentry", "/", None))];
    var cfg := Config("saveFlyData", [parent, link]);
    assert GroupFor(groups, 0) == Some(groups[0].1);
    assert ParentGroup(cfg, groups, 1) == Some(groups[0].1);
    assert Attached("/", "data") == "//data";
    assert link.attrs["name"] == "data" && AttrOr(link, "linktype", "NeXus") == "HDF5";
    assert "Cannot create HDF5 " + "HDF5" + " link: " + "//data" == "Cannot create HDF5 HDF5 link: //data";
    assert LinkTypeCheck("HDF5", "//data") == Some(RuntimeError("Cannot create HDF5 HDF5 link: //data"));
  }

  // ----- signals -----

  /** The ophyd name of the i-th PV (counting from zero). */
  function SignalName(i: nat): string
  {
    "metadata_" + Text.ZeroPad(i + 1, 4)
  }

  function SignalFor(pvname: string, i: nat): (s: Signal)
    ensures s.name == SignalName(i) && s.pvname == pvname
    ensures s.kind == PlainSignal <==> '.' in pvname
  {
    Signal(if '.' in pvname then PlainSignal else SignalWithDesc, pvname, SignalName(i))
  }

  /** The registry after `_connect_ophyd`: the PV at position i gets a new
      signal named for i + 1. */
  function WithSignals(pvs: Dict<string, PvSpec>): (r: Dict<string, PvSpec>)
    ensures |r| == |pvs| && Keys(r) == Keys(pvs)
    ensures forall i :: 0 <= i < |pvs| ==>
      r[i] == (pvs[i].0, pvs[i].1.(signal := Some(SignalFor(pvs[i].1.pvname, i))))
  {
    seq(|pvs|, i requires 0 <= i < |pvs| => (pvs[i].0, pvs[i].1.(signal := Some(SignalFor(pvs[i].1.pvname, i)))))
  }

  /** No two PVs get the same signal name. */
  lemma SignalNamesDistinct(i: nat, j: nat)
    requires i != j
    ensures SignalName(i) != SignalName(j)
  {
    Text.ZeroPadValue(i + 1, 4);
    Text.ZeroPadValue(j + 1, 4);
    assert SignalName(i)[9..] == Text.ZeroPad(i + 1, 4);
    assert SignalName(j)[9..] == Text.ZeroPad(j + 1, 4);
  }

  /** Whether a PV's signal is connected, given the set of PV names that
      answer; a PV without a signal has no `connected` attribute. */
  function SignalUp(pv: PvSpec, up: set<string>): Result<bool>
  {
    if pv.signal.None? then Err(AttributeError) else Ok(pv.signal.value.pvname in up)
  }

  /** `xs` is `ys` with some elements left out, the rest in their order. */
  predicate Subsequence<T(==)>(xs: seq<T>, ys: seq<T>)
  {
    if xs == [] then true
    else if ys == [] then false
    else (xs[0] == ys[0] && Subsequence(xs[1..], ys[1..])) || Subsequence(xs, ys[1..])
  }

  /** `unconnected_signals`: the PVs whose signal is not connected, in
      registry order. */
  function Unconnected(pvs: seq<PvSpec>, up: set<string>): (r: Result<seq<PvSpec>>)
    ensures r.Ok? <==> forall i :: 0 <= i < |pvs| ==> pvs[i].signal.Some?
    ensures r.Ok? ==> forall p :: p in r.value <==> p in pvs && p.signal.value.pvname !in up
    ensures r.Ok? ==> Subsequence(r.value, pvs)
  {
    if pvs == [] then Ok([])
    else
      var rest := Unconnected(pvs[1..], up);
      assert forall i :: 1 <= i < |pvs| ==> pvs[i] == pvs[1..][i - 1];
      assert forall p :: p in pvs <==> p == pvs[0] || p in pvs[1..];
      if pvs[0].signal.None? then Err(AttributeError)
      else if rest.Err? then rest
      else if pvs[0].signal.value.pvname in up then rest
      else Ok([pvs[0]] + rest.value)
  }

  /** `connected`: no signal reports False. */
  function Connected(pvs: seq<PvSpec>, up: set<string>): (r: Result<bool>)
  {
    if pvs == [] then Ok(true)
    else
      var first := SignalUp(pvs[0], up);
      if first.Err? then first
      else
        var rest := Connected(pvs[1..], up);
        if rest.Err? then rest else Ok(first.value && rest.value)
  }

  /** The structure is connected exactly when no signal is unconnected. */
  lemma {:induction false} ConnectedIffNoneUnconnected(pvs: seq<PvSpec>, up: set<string>)
    ensures Connected(pvs, up).Ok? <==> Unconnected(pvs, up).Ok?
    ensures Connected(pvs, up).Ok? ==> (Connected(pvs, up).value <==> Unconnected(pvs, up).value == [])
  {
    if pvs != [] {
      ConnectedIffNoneUnconnected(pvs[1..], up);
    }
  }

  // ----- the manager -----

  /** `NeXus_Structure`: the configuration file name, whether it has been
      read, and the four registries. */
  class Structure {
    const configFile: string
    var configured: bool
    var regs: Registries

    constructor(configFile: string)
      ensures this.configFile == configFile && !configured && regs == EmptyRegistries
    {
      this.configFile := configFile;
      configured := false;
      regs := EmptyRegistries;
    }

    /** Registering element `i` if it is of `kind`: the rest of the pass
        from `i` is the rest of the pass from `i + 1`, unless it fails. */
    method RegisterOne(cfg: Config, kind: Kind, i: nat) returns (e: Option<Error>)
      requires i < |cfg.elements|
      modifies this
      ensures e.None? ==> RegisterFrom(cfg, kind, i, old(regs)) == RegisterFrom(cfg, kind, i + 1, regs)
      ensures e.Some? ==> RegisterFrom(cfg, kind, i, old(regs)) == (regs, e)
      ensures configured == old(configured)
    {
      RegisterFromStep(cfg, kind, i, regs);
      if cfg.elements[i].tag == TagOf(kind) {
        var next := Register(cfg, kind, i, regs);
        if next.Err? {
          return Some(next.error);
        }
        regs := next.value;
      }
      return None;
    }

    /** One registration pass over the elements of one kind. */
    method RegisterAll(cfg: Config, kind: Kind) returns (e: Option<Error>)
      modifies this
      ensures (regs, e) == RegisterFrom(cfg, kind, 0, old(regs))
      ensures configured == old(configured)
    {
      var i := 0;
      while i < |cfg.elements|
        invariant 0 <= i <= |cfg.elements|
        invariant RegisterFrom(cfg, kind, 0, old(regs)) == RegisterFrom(cfg, kind, i, regs)
        invariant configured == old(configured)
      {
        e := RegisterOne(cfg, kind, i);
        if e.Some? {
          return;
        }
        i := i + 1;
      }
      return None;
    }

    /** `_read_configuration`: the registries become what `Configure`
        makes of them, and the structure is marked configured only when
        every element was registered. */
    method ReadConfiguration(cfg: Config) returns (e: Option<Error>)
      modifies this
      ensures (regs, e) == Configure(cfg, old(regs))
      ensures configured == (e.None? || old(configured))
    {
      if cfg.rootTag != "saveFlyData" {
        return Some(RuntimeError(NotSaveFlyData));
      }
      e := RegisterAll(cfg, GroupKind);
      if e.Some? { return; }
      e := RegisterAll(cfg, FieldKind);
      if e.Some? { return; }
      e := RegisterAll(cfg, PvKind);
      if e.Some? { return; }
      e := RegisterAll(cfg, LinkKind);
      if e.None? {
        configured := true;
      }
    }

    /** `_connect_ophyd`: each PV, in registry order, gets its signal. */
    method ConnectOphyd()
      modifies this
      ensures regs == old(regs).(pvs := WithSignals(old(regs).pvs))
      ensures configured == old(configured)
    {
      var i := 0;
      while i < |regs.pvs|
        invariant 0 <= i <= |regs.pvs| == |old(regs).pvs|
        invariant regs == old(regs).(pvs := regs.pvs)
        invariant configured == old(configured)
        invariant forall j :: 0 <= j < i ==> regs.pvs[j] == WithSignals(old(regs).pvs)[j]
        invariant forall j :: i <= j < |regs.pvs| ==> regs.pvs[j] == old(regs).pvs[j]
      {
        var (key, pv) := regs.pvs[i];
        regs := regs.(pvs := regs.pvs[i := (key, pv.(signal := Some(SignalFor(pv.pvname, i))))]);
        i := i + 1;
      }
    }

    /** `len(structure)`: the number of groups. */
    function Size(): (n: nat)
      reads this
      ensures n == |Keys(regs.groups)|
    {
      |regs.groups|
    }

    /** `get_hdf5_path(node)`: the path of the group made from that
        element, if any. */
    function Hdf5Path(node: nat): (r: Option<string>)
      reads this
      ensures r.Some? <==> exists i :: 0 <= i < |regs.groups| && regs.groups[i].1.node == node
      ensures r.Some? ==> exists i :: 0 <= i < |regs.groups| && regs.groups[i].1 == GroupSpec(node, regs.groups[i].1.name, regs.groups[i].1.nxClass, r.value, regs.groups[i].1.parentPath)
    {
      var g := GroupFor(regs.groups, node);
      if g.None? then None else Some(g.value.path)
    }
  }

  /** The module-level `manager`: one structure until it is reset. */
  class ManagerSlot {
    var manager: Option<Structure>

    constructor()
      ensures manager.None?
    {
      manager := None;
    }

    /** `get_manager(config_file)`: the existing structure, whatever file
        is named now, or else a new one for this file. */
    method GetManager(configFile: string) returns (m: Structure)
      modifies this
      ensures old(manager).Some? ==> m == old(manager).value && manager == old(manager)
      ensures old(manager).None? ==> (fresh(m) && manager == Some(m) && m.configFile == configFile &&
        !m.configured && m.regs == EmptyRegistries)
    {
      if manager.None? {
        m := new Structure(configFile);
        manager := Some(m);
      } else {
        m := manager.value;
      }
    }

    /** `reset_manager()`: the next request makes a new structure. */
    method ResetManager()
      modifies this
      ensures manager.None?
    {
      manager := None;
    }
  }
}
