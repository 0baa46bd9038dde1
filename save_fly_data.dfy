/** Saving the EPICS data of a fly scan into a NeXus file: creating the
    file's groups and fields from the structure registries, writing the
    PVs in two passes (before the scan ends and after it), making the
    links, and the checks of the command line entry point.  The newer copy
    skips unconnected PVs after the scan and replaces an existing dataset
    of the same name; the older copy does neither.  Both are modelled. */
module SaveFlyData {
  import opened Wrappers
  import opened OrderedDicts
  import opened NexusStructure
  import Text

  const NotConnectedText := "not connected"
  const NoDataText := "no data"
  const CreatorVersion := "unknown"

  /** One item of data: text, an integer or a floating-point number. */
  datatype Datum = DText(s: string) | DInt(i: int) | DReal(r: real)

  /** What reading a PV gives: None, one value, or an array. */
  datatype Reading = NoValue | Scalar(d: Datum) | Array(items: seq<Datum>)

  /** The reading of the PV registered under `path`; a PV the map does
      not mention reads as None. */
  function ReadingOf(readings: map<string, Reading>, path: string): Reading
  {
    if path in readings then readings[path] else NoValue
  }

  // ----- preparing a value -----

  /** `value[:limit]` when the array is longer than the limit: a prefix,
      `limit` items long for a non-negative limit; a negative limit drops
      that many items from the end. */
  function Truncate<T>(xs: seq<T>, limit: int): (r: seq<T>)
    ensures r <= xs
    ensures 0 <= limit ==> |r| == if |xs| < limit then |xs| else limit
    ensures limit < 0 ==> |r| == if |xs| + limit < 0 then 0 else |xs| + limit
  {
    if |xs| <= limit then xs
    else if 0 <= limit then xs[..limit]
    else if |xs| + limit < 0 then []
    else xs[..|xs| + limit]
  }

  /** Truncating again to the same non-negative limit changes nothing. */
  lemma TruncateIdempotent<T>(xs: seq<T>, limit: nat)
    ensures Truncate(Truncate(xs, limit), limit) == Truncate(xs, limit)
  {
  }

  /** The length limit of a PV, when it names a registered PV: that PV's
      reading, which must be an integer. */
  function LimitOf(pv: PvSpec, pvs: Dict<string, PvSpec>, readings: map<string, Reading>): (r: Result<Option<int>>)
    ensures pv.lengthLimit.None? || pv.lengthLimit.value == "" || pv.lengthLimit.value !in Keys(pvs) ==> r == Ok(None)
    ensures r.Ok? && r.value.Some? ==> ReadingOf(readings, pv.lengthLimit.value) == Scalar(DInt(r.value.value))
  {
    if pv.lengthLimit.None? || pv.lengthLimit.value == "" || pv.lengthLimit.value !in Keys(pvs) then Ok(None)
    else match ReadingOf(readings, pv.lengthLimit.value)
      case Scalar(DInt(k)) => Ok(Some(k))
      case _ => Err(TypeError)
  }

  /** The data written for a reading: None becomes "no data", a single
      value a one-item list, an array is cut to the length limit. */
  function Prepared(reading: Reading, limit: Result<Option<int>>): (r: Result<seq<Datum>>)
    ensures reading.NoValue? ==> r == Ok([DText(NoDataText)])
    ensures reading.Scalar? ==> r == Ok([reading.d])
    ensures reading.Array? && limit.Err? ==> r == Err(limit.error)
    ensures reading.Array? && limit.Ok? ==>
      (&& r.Ok? && r.value <= reading.items
       && (limit.value.Some? && limit.value.value >= 0 ==> |r.value| <= limit.value.value)
       && (limit.value.None? ==> r.value == reading.items))
  {
    match reading
    case NoValue => Ok([DText(NoDataText)])
    case Scalar(d) => Ok([d])
    case Array(xs) =>
      if limit.Err? then Err(limit.error)
      else if limit.value.None? then Ok(xs)
      else Ok(Truncate(xs, limit.value.value))
  }

  // ----- the two passes -----

  /** The pass before the scan ends, and the pass after it; the newer copy
      skips unconnected PVs after the scan. */
  datatype Pass = Preliminary | AfterScan(skipUnconnected: bool)

  predicate IsConnected(pv: PvSpec, up: set<string>)
  {
    pv.signal.Some? && pv.signal.value.pvname in up
  }

  /** What a pass writes for one PV: nothing (None), or the data. */
  function PvData(pass: Pass, pv: PvSpec, pvs: Dict<string, PvSpec>, up: set<string>, readings: map<string, Reading>): Result<Option<seq<Datum>>>
  {
    var value := Prepared(ReadingOf(readings, pv.path), LimitOf(pv, pvs, readings));
    match pass
    case Preliminary =>
      if pv.acquireAfterScan then Ok(None)
      else if !IsConnected(pv, up) then Ok(Some([DText(NotConnectedText)]))
      else if value.Err? then Err(value.error) else Ok(Some(value.value))
    case AfterScan(skip) =>
      if skip && !IsConnected(pv, up) then Ok(None)
      else if !pv.acquireAfterScan then Ok(None)
      else if value.Err? then Err(value.error) else Ok(Some(value.value))
  }

  /** A connected PV is written by exactly one of the two passes: before
      the scan ends when it is not to be acquired after the scan, after
      the scan otherwise. */
  lemma WrittenOnce(pv: PvSpec, pvs: Dict<string, PvSpec>, up: set<string>, readings: map<string, Reading>, skip: bool)
    requires IsConnected(pv, up)
    requires Prepared(ReadingOf(readings, pv.path), LimitOf(pv, pvs, readings)).Ok?
    ensures PvData(Preliminary, pv, pvs, up, readings).Ok? && PvData(AfterScan(skip), pv, pvs, up, readings).Ok?
    ensures PvData(Preliminary, pv, pvs, up, readings).value.Some? <==> !pv.acquireAfterScan
    ensures PvData(AfterScan(skip), pv, pvs, up, readings).value.Some? <==> pv.acquireAfterScan
  {
  }

  /** An unconnected PV is written as "not connected" before the scan
      ends (unless it is acquired after the scan); after the scan the
      newer copy never writes it, the older copy reads it anyway. */
  lemma UnconnectedPv(pv: PvSpec, pvs: Dict<string, PvSpec>, up: set<string>, readings: map<string, Reading>)
    requires !IsConnected(pv, up)
    ensures !pv.acquireAfterScan ==> PvData(Preliminary, pv, pvs, up, readings) == Ok(Some([DText(NotConnectedText)]))
    ensures pv.acquireAfterScan ==> PvData(Preliminary, pv, pvs, up, readings) == Ok(None)
    ensures PvData(AfterScan(true), pv, pvs, up, readings) == Ok(None)
    ensures pv.acquireAfterScan && ReadingOf(readings, pv.path).NoValue? ==>
      PvData(AfterScan(false), pv, pvs, up, readings) == Ok(Some([DText(NoDataText)]))
  {
  }

  /** One dataset write: full HDF5 path and data. */
  datatype Write = Write(path: string, data: seq<Datum>)

  /** Where a PV's dataset goes: its label inside its parent group. */
  function DatasetPath(pv: PvSpec): string
  {
    ChildPath(pv.parentPath, pv.pvLabel)
  }

  /** The writes of a pass over the PVs in order; the first error stops
      the pass and keeps the writes before it. */
  function PassWrites(pass: Pass, vs: seq<PvSpec>, pvs: Dict<string, PvSpec>, up: set<string>, readings: map<string, Reading>): (r: (seq<Write>, Option<Error>))
    ensures |r.0| <= |vs|
  {
    if vs == [] then ([], None)
    else
      var (done, e) := PassWrites(pass, vs[..|vs| - 1], pvs, up, readings);
      if e.Some? then (done, e) else PassStep(pass, done, vs[|vs| - 1], pvs, up, readings)
  }

  /** What a pass adds to the writes so far for one PV. */
  function PassStep(pass: Pass, done: seq<Write>, pv: PvSpec, pvs: Dict<string, PvSpec>, up: set<string>, readings: map<string, Reading>): (seq<Write>, Option<Error>)
  {
    var d := PvData(pass, pv, pvs, up, readings);
    if d.Err? then (done, Some(d.error))
    else if d.value.None? then (done, None)
    else (done + [Write(DatasetPath(pv), d.value.value)], None)
  }

  /** Once a pass has failed, later PVs change nothing. */
  lemma {:induction false} PassWritesFailed(pass: Pass, vs: seq<PvSpec>, i: nat, pvs: Dict<string, PvSpec>, up: set<string>, readings: map<string, Reading>)
    requires i <= |vs| && PassWrites(pass, vs[..i], pvs, up, readings).1.Some?
    ensures PassWrites(pass, vs, pvs, up, readings) == PassWrites(pass, vs[..i], pvs, up, readings)
    decreases |vs|
  {
    if i < |vs| {
      assert vs[..|vs| - 1][..i] == vs[..i];
      PassWritesFailed(pass, vs[..|vs| - 1], i, pvs, up, readings);
    } else {
      assert vs[..i] == vs;
    }
  }

  lemma PassWritesStep(pass: Pass, vs: seq<PvSpec>, i: nat, pvs: Dict<string, PvSpec>, up: set<string>, readings: map<string, Reading>)
    requires i < |vs| && PassWrites(pass, vs[..i], pvs, up, readings).1.None?
    ensures PassWrites(pass, vs[..i + 1], pvs, up, readings) == PassStep(pass, PassWrites(pass, vs[..i], pvs, up, readings).0, vs[i], pvs, up, readings)
  {
    assert vs[..i + 1][..i] == vs[..i];
  }

  /** Every write of a pass is the data that pass gives some PV, at that
      PV's dataset path. */
  lemma {:induction false} PassWritesFrom(pass: Pass, vs: seq<PvSpec>, pvs: Dict<string, PvSpec>, up: set<string>, readings: map<string, Reading>)
    ensures forall w :: w in PassWrites(pass, vs, pvs, up, readings).0 ==>
      exists pv :: pv in vs && PvData(pass, pv, pvs, up, readings).Ok? && PvData(pass, pv, pvs, up, readings).value.Some? &&
        w == Write(DatasetPath(pv), PvData(pass, pv, pvs, up, readings).value.value)
  {
    if vs != [] {
      var init := vs[..|vs| - 1];
      PassWritesFrom(pass, init, pvs, up, readings);
      forall pv | pv in init ensures pv in vs { }
    }
  }

  /** Writing a dataset: the newer copy replaces one of the same name; the
      older copy leaves an existing one alone. */
  function ApplyOne(datasets: map<string, seq<Datum>>, w: Write, replace: bool): (r: map<string, seq<Datum>>)
    ensures w.path in r && r.Keys == datasets.Keys + {w.path}
    ensures replace || w.path !in datasets ==> r[w.path] == w.data
    ensures !replace && w.path in datasets ==> r == datasets
    ensures forall p :: p in datasets && p != w.path ==> r[p] == datasets[p]
  {
    if replace || w.path !in datasets then datasets[w.path := w.data] else datasets
  }

  function Apply(datasets: map<string, seq<Datum>>, ws: seq<Write>, replace: bool): map<string, seq<Datum>>
  {
    if ws == [] then datasets else ApplyOne(Apply(datasets, ws[..|ws| - 1], replace), ws[|ws| - 1], replace)
  }

  /** After the writes every written path holds a dataset, and nothing
      else was touched. */
  lemma {:induction false} ApplyPaths(datasets: map<string, seq<Datum>>, ws: seq<Write>, replace: bool)
    ensures forall i :: 0 <= i < |ws| ==> ws[i].path in Apply(datasets, ws, replace)
    ensures forall p :: p in datasets && (forall i :: 0 <= i < |ws| ==> ws[i].path != p) ==>
      p in Apply(datasets, ws, replace) && Apply(datasets, ws, replace)[p] == datasets[p]
  {
    if ws != [] {
      ApplyPaths(datasets, ws[..|ws| - 1], replace);
    }
  }

  // ----- group creation order -----

  predicate Sorted(s: seq<string>)
  {
    forall i, j :: 0 <= i < j < |s| ==> Below(s[i], s[j])
  }

  function Insert(x: string, s: seq<string>): (r: seq<string>)
    ensures multiset(r) == multiset(s) + multiset{x}
  {
    if s == [] then [x]
    else if Below(x, s[0]) then [x] + s
    else
      assert s == [s[0]] + s[1..];
      [s[0]] + Insert(x, s[1..])
  }

  /** `sorted(...)` of the group paths. */
  function SortPaths(ks: seq<string>): (r: seq<string>)
    ensures multiset(r) == multiset(ks)
  {
    if ks == [] then []
    else
      assert ks == [ks[0]] + ks[1..];
      Insert(ks[0], SortPaths(ks[1..]))
  }

  /** Sorting neither adds nor drops a path. */
  lemma SortPathsHas(ks: seq<string>, x: string)
    ensures x in SortPaths(ks) <==> x in ks
  {
    var r := SortPaths(ks);
    assert x in r <==> x in multiset(r);
    assert x in ks <==> x in multiset(ks);
  }

  lemma {:induction false} InsertSorted(x: string, s: seq<string>)
    requires Sorted(s) && x !in s
    ensures Sorted(Insert(x, s))
  {
    if s != [] {
      if Below(x, s[0]) {
        forall j | 0 < j < |s| ensures Below(x, s[j]) { BelowTransitive(x, s[0], s[j]); }
      } else {
        BelowTotal(x, s[0]);
        InsertSorted(x, s[1..]);
        var rest := Insert(x, s[1..]);
        forall j | 0 <= j < |rest| ensures Below(s[0], rest[j]) {
          assert rest[j] in multiset(rest);
          if rest[j] != x {
            assert rest[j] in multiset(s[1..]);
            var k :| 0 <= k < |s[1..]| && s[1..][k] == rest[j];
            assert s[k + 1] == rest[j];
          }
        }
      }
    }
  }

  predicate Distinct(ks: seq<string>)
  {
    forall i, j :: 0 <= i < j < |ks| ==> ks[i] != ks[j]
  }

  /** Sorting distinct paths gives them in strictly increasing order. */
  lemma {:induction false} SortPathsSorted(ks: seq<string>)
    requires Distinct(ks)
    ensures Sorted(SortPaths(ks))
  {
    if ks != [] {
      SortPathsSorted(ks[1..]);
      var rest := SortPaths(ks[1..]);
      assert ks[0] !in ks[1..] by {
        forall k | 0 <= k < |ks[1..]| ensures ks[1..][k] != ks[0] { assert ks[1..][k] == ks[k + 1]; }
      }
      assert ks[0] !in multiset(rest);
      InsertSorted(ks[0], rest);
    }
  }

  /** In sorted order, a path comes after every path that sorts before
      it. */
  lemma BeforeInOrder(order: seq<string>, i: nat, p: string)
    requires Sorted(order) && i < |order| && p in order && Below(p, order[i])
    ensures p in order[..i]
  {
    var j :| 0 <= j < |order| && order[j] == p;
    if j == i {
      BelowIrreflexive(p);
    } else if j > i {
      BelowAsymmetric(order[i], order[j]);
    }
    assert order[..i][j] == p;
  }

  /** Creating the groups in the given order: the root makes the file; any
      other group is made inside its parent, which must have been made
      already (otherwise the parent's HDF5 object is None). */
  function CreateGroups(reg: Dict<string, GroupSpec>, order: seq<string>): (seq<string>, Option<Error>)
  {
    if order == [] then ([], None)
    else
      var (made, e) := CreateGroups(reg, order[..|order| - 1]);
      if e.Some? then (made, e) else CreateStep(reg, made, order[|order| - 1])
  }

  /** Making the group registered under `k`, given the groups made. */
  function CreateStep(reg: Dict<string, GroupSpec>, made: seq<string>, k: string): (seq<string>, Option<Error>)
  {
    var spec := Get(reg, k);
    if k == "/" then (made + ["/"], None)
    else if spec.None? then (made, Some(KeyError(k)))
    else if spec.value.parentPath.None? || spec.value.parentPath.value !in made then (made, Some(AttributeError))
    else (made + [ChildPath(spec.value.parentPath.value, spec.value.name)], None)
  }

  lemma CreateGroupsStep(reg: Dict<string, GroupSpec>, order: seq<string>, i: nat)
    requires i < |order| && CreateGroups(reg, order[..i]).1.None?
    ensures CreateGroups(reg, order[..i + 1]) == CreateStep(reg, CreateGroups(reg, order[..i]).0, order[i])
  {
    assert order[..i + 1][..i] == order[..i];
  }

  /** What a valid registry says of the group registered under `k`. */
  lemma GroupAt(reg: Dict<string, GroupSpec>, k: string)
    requires GroupsValid(reg) && k in Keys(reg)
    ensures var g := Get(reg, k).value;
      && (g.parentPath.None? ==> k == "/")
      && (g.parentPath.Some? ==> g.parentPath.value in Keys(reg) && Below(g.parentPath.value, k) && k == ChildPath(g.parentPath.value, g.name))
  {
    var g := Get(reg, k).value;
    var m :| 0 <= m < |reg| && reg[m] == (k, g);
  }

  /** `sorted(group_registry.items())` puts every parent before its
      children, so with a valid registry every group is made, each at
      its own path, in sorted order. */
  lemma {:induction false} CreateGroupsInSortedOrder(reg: Dict<string, GroupSpec>, order: seq<string>, i: nat)
    requires GroupsValid(reg) && Sorted(order) && forall k :: k in order ==> k in Keys(reg)
    requires forall k :: k in Keys(reg) ==> k in order
    requires i <= |order|
    ensures CreateGroups(reg, order[..i]) == (order[..i], None)
  {
    if i > 0 {
      var j := i - 1;
      CreateGroupsInSortedOrder(reg, order, j);
      SortedOrderStep(reg, order, j);
      assert j + 1 == i;
    }
  }

  /** One more group of the sorted order is made once all before it are. */
  lemma SortedOrderStep(reg: Dict<string, GroupSpec>, order: seq<string>, i: nat)
    requires GroupsValid(reg) && Sorted(order) && forall k :: k in order ==> k in Keys(reg)
    requires forall k :: k in Keys(reg) ==> k in order
    requires i < |order| && CreateGroups(reg, order[..i]) == (order[..i], None)
    ensures CreateGroups(reg, order[..i + 1]) == (order[..i + 1], None)
  {
    var k := order[i];
    assert k in order;
    assert order[..i + 1] == order[..i] + [k];
    CreateGroupsStep(reg, order, i);
    assert CreateGroups(reg, order[..i + 1]) == CreateStep(reg, order[..i], k);
    GroupAt(reg, k);
    var g := Get(reg, k).value;
    if k != "/" && g.parentPath.Some? {
      var p := g.parentPath.value;
      assert p in Keys(reg) && Below(p, k);
      assert p in order;
      BeforeInOrder(order, i, p);
    }
    StepMakesGroup(reg, order[..i], k);
  }

  /** A group whose parent has been made is made at its own path. */
  lemma StepMakesGroup(reg: Dict<string, GroupSpec>, made: seq<string>, k: string)
    requires GroupsValid(reg) && k in Keys(reg)
    requires k != "/" ==> Get(reg, k).value.parentPath.Some? && Get(reg, k).value.parentPath.value in made
    ensures CreateStep(reg, made, k) == (made + [k], None)
  {
    GroupAt(reg, k);
  }

  lemma InLongerPrefix<T>(xs: seq<T>, i: nat, x: T)
    requires i < |xs|
    ensures x in xs[..i + 1] <==> x in xs[..i] || xs[i] == x
  {
    assert xs[..i + 1] == xs[..i] + [xs[i]];
  }

  /** Once making the groups has failed, later groups change nothing. */
  lemma {:induction false} CreateGroupsFailed(reg: Dict<string, GroupSpec>, order: seq<string>, i: nat)
    requires i <= |order| && CreateGroups(reg, order[..i]).1.Some?
    ensures CreateGroups(reg, order) == CreateGroups(reg, order[..i])
    decreases |order|
  {
    if i < |order| {
      assert order[..|order| - 1][..i] == order[..i];
      CreateGroupsFailed(reg, order[..|order| - 1], i);
    } else {
      assert order[..i] == order;
    }
  }

  /** The whole registry: sorted, every group is made. */
  lemma CreateAllGroups(reg: Dict<string, GroupSpec>)
    requires GroupsValid(reg)
    ensures CreateGroups(reg, SortPaths(Keys(reg))) == (SortPaths(Keys(reg)), None)
  {
    var order := SortPaths(Keys(reg));
    assert Distinct(Keys(reg));
    SortPathsSorted(Keys(reg));
    forall k | k in order ensures k in Keys(reg) { assert k in multiset(order); }
    forall k | k in Keys(reg) ensures k in order { assert k in multiset(Keys(reg)); }
    CreateGroupsInSortedOrder(reg, order, |order|);
    assert order[..|order|] == order;
  }

  /** The datasets of the fields: each field's text, as a one-item list,
      in its parent group; a parent group not made is an error. */
  function FieldWrites(fields: seq<FieldSpec>, made: seq<string>): (r: Result<seq<Write>>)
    ensures r.Ok? <==> forall i :: 0 <= i < |fields| ==> fields[i].parentPath in made
    ensures r.Ok? ==> |r.value| == |fields| && forall i :: 0 <= i < |fields| ==>
      r.value[i] == Write(ChildPath(fields[i].parentPath, fields[i].name), [DText(fields[i].text)])
  {
    if fields == [] then Ok([])
    else
      var init := FieldWrites(fields[..|fields| - 1], made);
      var f := fields[|fields| - 1];
      if init.Err? then init
      else if f.parentPath !in made then Err(Exception("problem with field=" + f.name + ", text=" + f.text))
      else Ok(init.value + [Write(ChildPath(f.parentPath, f.name), [DText(f.text)])])
  }

  /** With valid registries the whole structure is made: every group in
      sorted order, and a dataset for every field. */
  lemma StructureMade(reg: Registries)
    requires Valid(reg)
    ensures CreateGroups(reg.groups, SortPaths(Keys(reg.groups))) == (SortPaths(Keys(reg.groups)), None)
    ensures FieldWrites(Values(reg.fields), SortPaths(Keys(reg.groups))).Ok?
  {
    CreateAllGroups(reg.groups);
    var made := SortPaths(Keys(reg.groups));
    forall i | 0 <= i < |Values(reg.fields)| ensures Values(reg.fields)[i].parentPath in made {
      var g := Values(reg.fields)[i].parentPath;
      assert g in Keys(reg.groups);
      assert g in multiset(Keys(reg.groups));
    }
  }

  /** The attributes of the root of a new file (the HDF5 and h5py versions
      and the program's own path are not modelled). */
  function RootAttrs(fileName: string, creatorVersion: string, configFile: string): map<string, string>
  {
    map["file_name" := fileName, "creator_version" := creatorVersion, "creator_config_file" := configFile]
  }

  // ----- links -----

  /** `"/".join(source.split("/")[0:-1])`: the source's parent path. */
  function LinkParent(source: string): string
  {
    var parts := Text.Split(source, '/');
    Text.Join("/", parts[..|parts| - 1])
  }

  /** The parent a link computes for a source is the path the source was
      made under. */
  lemma LinkParentOfChild(p: string, name: string)
    requires '/' !in name
    ensures LinkParent(p + "/" + name) == p
  {
    Text.SplitLast(p, name, '/');
    var parts := Text.Split(p + "/" + name, '/');
    assert parts[..|parts| - 1] == Text.Split(p, '/');
    Text.JoinSplit(p, '/');
  }

  /** The result of making links in order: the "target" attribute of each
      source (written only if it has none) and the links themselves.  The
      source's parent and the source must exist and the link's own path
      must not; the first failure stops the pass. */
  function MakeLinks(objects: set<string>, targets: map<string, string>, links: map<string, string>, ls: seq<LinkSpec>)
    : (r: (map<string, string>, map<string, string>, Option<Error>))
    ensures links.Keys <= r.1.Keys && targets.Keys <= r.0.Keys
  {
    if ls == [] then (targets, links, None)
    else
      var (t, l, e) := MakeLinks(objects, targets, links, ls[..|ls| - 1]);
      if e.Some? then (t, l, e) else LinkStep(objects, t, l, ls[|ls| - 1])
  }

  /** `make_link` for one link, given the objects of the file. */
  function LinkStep(objects: set<string>, targets: map<string, string>, links: map<string, string>, link: LinkSpec)
    : (r: (map<string, string>, map<string, string>, Option<Error>))
    ensures links.Keys <= r.1.Keys && targets.Keys <= r.0.Keys
    ensures forall x :: x in links ==> r.1[x] == links[x]
    ensures r.2.None? ==> link.path !in links && r.1 == links[link.path := link.source] && link.source in r.0
    ensures r.2 == Some(RuntimeError("Unable to create link: " + link.path)) ==> r.1 == links && link.source in r.0
  {
    var known := objects + links.Keys;
    if LinkParent(link.source) !in known then (targets, links, Some(KeyError(LinkParent(link.source))))
    else if link.source !in known then (targets, links, Some(KeyError(link.source)))
    else
      // the "target" attribute is written before the link is attempted
      var marked := if link.source in targets then targets else targets[link.source := link.source];
      if link.path in known then (marked, links, Some(RuntimeError("Unable to create link: " + link.path)))
      else (marked, links[link.path := link.source], None)
  }

  /** When every link is made, each link's path leads to its source, and
      each source carries a "target" attribute. */
  lemma {:induction false} MakeLinksMade(objects: set<string>, targets: map<string, string>, links: map<string, string>, ls: seq<LinkSpec>)
    ensures var (t, l, e) := MakeLinks(objects, targets, links, ls);
      e.None? ==> forall i :: 0 <= i < |ls| ==> ls[i].path in l && l[ls[i].path] == ls[i].source && ls[i].source in t
  {
    if ls != [] {
      var init := ls[..|ls| - 1];
      MakeLinksMade(objects, targets, links, init);
      var (t, l, e) := MakeLinks(objects, targets, links, init);
      var (t', l', e') := MakeLinks(objects, targets, links, ls);
      if e'.None? {
        assert e.None? && (t', l', e') == LinkStep(objects, t, l, ls[|ls| - 1]);
        LinkStepKeepsMade(objects, t, l, ls[|ls| - 1], init);
        forall i | 0 <= i < |ls| ensures ls[i].path in l' && l'[ls[i].path] == ls[i].source && ls[i].source in t' {
          if i < |init| {
            assert ls[i] == init[i];
          }
        }
      }
    }
  }

  /** A link made by one more step joins those already made, which stay. */
  lemma LinkStepKeepsMade(objects: set<string>, targets: map<string, string>, links: map<string, string>, link: LinkSpec, made: seq<LinkSpec>)
    requires forall i :: 0 <= i < |made| ==> made[i].path in links && links[made[i].path] == made[i].source && made[i].source in targets
    requires LinkStep(objects, targets, links, link).2.None?
    ensures var (t, l, _) := LinkStep(objects, targets, links, link);
      && link.path in l && l[link.path] == link.source && link.source in t
      && forall i :: 0 <= i < |made| ==> made[i].path in l && l[made[i].path] == made[i].source && made[i].source in t
  {
  }

  /** A source that already has a "target" attribute keeps it. */
  lemma {:induction false} TargetKept(objects: set<string>, targets: map<string, string>, links: map<string, string>, ls: seq<LinkSpec>, src: string)
    requires src in targets
    ensures var r := MakeLinks(objects, targets, links, ls); src in r.0 && r.0[src] == targets[src]
  {
    if ls != [] {
      var init := ls[..|ls| - 1];
      TargetKept(objects, targets, links, init, src);
      var (t, l, e) := MakeLinks(objects, targets, links, init);
      if e.None? {
        LinkStepKeepsTarget(objects, t, l, ls[|ls| - 1], src);
      }
    }
  }

  /** A link, once made, stays through the later steps, whether or not
      one of them fails. */
  lemma {:induction false} MakeLinksKeepsPrefix(objects: set<string>, targets: map<string, string>, links: map<string, string>, ls: seq<LinkSpec>, k: nat)
    requires k <= |ls|
    ensures var p := MakeLinks(objects, targets, links, ls[..k]).1; var r := MakeLinks(objects, targets, links, ls).1;
      forall x :: x in p ==> x in r && r[x] == p[x]
    decreases |ls| - k
  {
    if k < |ls| {
      var init := ls[..|ls| - 1];
      assert init[..k] == ls[..k];
      MakeLinksKeepsPrefix(objects, targets, links, init, k);
      var (t, l, e) := MakeLinks(objects, targets, links, init);
      if e.None? {
        var r := LinkStep(objects, t, l, ls[|ls| - 1]);
        assert MakeLinks(objects, targets, links, ls) == r;
        assert forall x :: x in l ==> x in r.1 && r.1[x] == l[x];
      }
    } else {
      assert ls[..k] == ls;
    }
  }

  /** The links made before the first failing one are in the file. */
  lemma LinksBeforeFailureKept(objects: set<string>, targets: map<string, string>, links: map<string, string>, ls: seq<LinkSpec>, k: nat)
    requires k <= |ls| && MakeLinks(objects, targets, links, ls[..k]).2.None?
    ensures var r := MakeLinks(objects, targets, links, ls).1;
      forall i :: 0 <= i < k ==> ls[i].path in r && r[ls[i].path] == ls[i].source
  {
    MakeLinksMade(objects, targets, links, ls[..k]);
    MakeLinksKeepsPrefix(objects, targets, links, ls, k);
    forall i | 0 <= i < k ensures ls[..k][i] == ls[i] { }
  }

  lemma LinkStepKeepsTarget(objects: set<string>, targets: map<string, string>, links: map<string, string>, link: LinkSpec, src: string)
    requires src in targets
    ensures var r := LinkStep(objects, targets, links, link); src in r.0 && r.0[src] == targets[src]
  {
  }

  // ----- the file -----

  /** The HDF5 file being written. */
  class FlyFile {
    var groups: seq<string>
    var datasets: map<string, seq<Datum>>
    var rootAttrs: map<string, string>
    var targets: map<string, string>
    var links: map<string, string>
    var closed: bool

    constructor()
      ensures groups == [] && datasets == map[] && rootAttrs == map[] && targets == map[] && links == map[] && !closed
    {
      groups := [];
      datasets := map[];
      rootAttrs := map[];
      targets := map[];
      links := map[];
      closed := false;
    }

    function Objects(): set<string>
      reads this
    {
      set g | g in groups :: g
    }

    /** `makeDataset(parent, name, data)`. */
    method MakeDataset(path: string, data: seq<Datum>, replace: bool) returns (ok: bool)
      modifies this
      ensures datasets == ApplyOne(old(datasets), Write(path, data), replace)
      ensures ok <==> replace || path !in old(datasets)
      ensures groups == old(groups) && rootAttrs == old(rootAttrs) && targets == old(targets)
      ensures links == old(links) && closed == old(closed)
    {
      ok := replace || path !in datasets;
      datasets := ApplyOne(datasets, Write(path, data), replace);
    }

    /** Making one group (the root makes the file and its attributes). */
    method CreateGroup(reg: Dict<string, GroupSpec>, k: string, rootAttributes: map<string, string>)
      returns (e: Option<Error>)
      modifies this
      ensures (groups, e) == CreateStep(reg, old(groups), k)
      ensures rootAttrs == if k == "/" then rootAttributes else old(rootAttrs)
      ensures datasets == old(datasets) && targets == old(targets) && links == old(links) && closed == old(closed)
    {
      var spec := Get(reg, k);
      if k == "/" {
        rootAttrs := rootAttributes;
        groups := groups + ["/"];
        e := None;
      } else if spec.None? {
        e := Some(KeyError(k));
      } else if spec.value.parentPath.None? || spec.value.parentPath.value !in groups {
        e := Some(AttributeError);
      } else {
        groups := groups + [ChildPath(spec.value.parentPath.value, spec.value.name)];
        e := None;
      }
    }

    /** Making the groups in the given order, in an empty file. */
    method CreateInOrder(reg: Dict<string, GroupSpec>, order: seq<string>, rootAttributes: map<string, string>)
      returns (e: Option<Error>)
      modifies this
      requires groups == [] && rootAttrs == map[]
      ensures (groups, e) == CreateGroups(reg, order)
      ensures rootAttrs == map[] || rootAttrs == rootAttributes
      ensures e.None? ==> rootAttrs == if "/" in order then rootAttributes else map[]
      ensures datasets == old(datasets) && targets == old(targets) && links == old(links) && closed == old(closed)
    {
      var i := 0;
      while i < |order|
        invariant 0 <= i <= |order|
        invariant CreateGroups(reg, order[..i]) == (groups, None)
        invariant rootAttrs == if "/" in order[..i] then rootAttributes else map[]
        invariant datasets == old(datasets) && targets == old(targets) && links == old(links) && closed == old(closed)
      {
        CreateGroupsStep(reg, order, i);
        e := CreateGroup(reg, order[i], rootAttributes);
        InLongerPrefix(order, i, "/");
        if e.Some? {
          CreateGroupsFailed(reg, order, i + 1);
          return;
        }
        i := i + 1;
      }
      assert order[..i] == order;
      e := None;
    }

    /** The groups of `_prepare_to_acquire`, in sorted path order, in a
        new file. */
    method CreateGroupsInFile(reg: Dict<string, GroupSpec>, rootAttributes: map<string, string>)
      returns (e: Option<Error>)
      modifies this
      ensures (groups, e) == CreateGroups(reg, SortPaths(Keys(reg)))
      ensures rootAttrs == map[] || rootAttrs == rootAttributes
      ensures e.None? ==> rootAttrs == if "/" in Keys(reg) then rootAttributes else map[]
      ensures datasets == map[] && targets == map[] && links == map[] && !closed
    {
      groups := [];
      datasets := map[];
      rootAttrs := map[];
      targets := map[];
      links := map[];
      closed := false;
      var order := SortPaths(Keys(reg));
      e := CreateInOrder(reg, order, rootAttributes);
      SortPathsHas(Keys(reg), "/");
    }

    /** The fields of `_prepare_to_acquire`, one dataset each. */
    method CreateFields(writes: seq<Write>, replace: bool)
      modifies this
      ensures datasets == Apply(old(datasets), writes, replace)
      ensures groups == old(groups) && rootAttrs == old(rootAttrs) && targets == old(targets)
      ensures links == old(links) && closed == old(closed)
    {
      var j := 0;
      while j < |writes|
        invariant 0 <= j <= |writes|
        invariant datasets == Apply(old(datasets), writes[..j], replace)
        invariant groups == old(groups) && rootAttrs == old(rootAttrs) && targets == old(targets)
        invariant links == old(links) && closed == old(closed)
      {
        assert writes[..j + 1][..j] == writes[..j];
        var _ := MakeDataset(writes[j].path, writes[j].data, replace);
        j := j + 1;
      }
      assert writes[..j] == writes;
    }

    /** The file as `CreateStructure` leaves it, with `e` its outcome:
        the groups made in sorted path order up to the first failure, then
        one dataset per field, no links, still open, and the root
        attributes once the root group is made. */
    predicate Created(reg: Registries, fileName: string, creatorVersion: string, configFile: string, replace: bool, e: Option<Error>)
      reads this
    {
      && var (made, err) := CreateGroups(reg.groups, SortPaths(Keys(reg.groups)));
      && groups == made
      && (err.Some? ==> e == err && datasets == map[])
      && (err.None? ==> var fw := FieldWrites(Values(reg.fields), made);
            (fw.Err? ==> e == Some(fw.error)) && (fw.Ok? ==> e.None? && datasets == Apply(map[], fw.value, replace)))
      && targets == map[] && links == map[] && !closed
      && (e.None? ==> rootAttrs == if "/" in Keys(reg.groups) then RootAttrs(fileName, creatorVersion, configFile) else map[])
    }

    /** The file and structure part of `_prepare_to_acquire`: a new file,
        the groups in sorted path order, then one dataset per field. */
    method CreateStructure(reg: Registries, fileName: string, creatorVersion: string, configFile: string, replace: bool)
      returns (e: Option<Error>)
      modifies this
      ensures Created(reg, fileName, creatorVersion, configFile, replace, e)
    {
      e := CreateGroupsInFile(reg.groups, RootAttrs(fileName, creatorVersion, configFile));
      if e.Some? {
        return;
      }
      var fw := FieldWrites(Values(reg.fields), groups);
      if fw.Err? {
        return Some(fw.error);
      }
      CreateFields(fw.value, replace);
    }

    /** One PV of a pass. */
    method WriteOne(pass: Pass, pv: PvSpec, pvs: Dict<string, PvSpec>, up: set<string>, readings: map<string, Reading>, replace: bool,
                     ghost before: map<string, seq<Datum>>, ghost done: seq<Write>)
      returns (e: Option<Error>)
      modifies this
      requires datasets == Apply(before, done, replace)
      ensures var (ws, err) := PassStep(pass, done, pv, pvs, up, readings); e == err && datasets == Apply(before, ws, replace)
      ensures groups == old(groups) && rootAttrs == old(rootAttrs) && targets == old(targets)
      ensures links == old(links) && closed == old(closed)
    {
      var d := PvData(pass, pv, pvs, up, readings);
      if d.Err? {
        return Some(d.error);
      }
      if d.value.Some? {
        assert (done + [Write(DatasetPath(pv), d.value.value)])[..|done|] == done;
        var _ := MakeDataset(DatasetPath(pv), d.value.value, replace);
      }
      e := None;
    }

    /** The next PV of a pass over `vs`, after the first `i` were written
        without error; an error ends the pass. */
    method WriteNext(pass: Pass, vs: seq<PvSpec>, i: nat, pvs: Dict<string, PvSpec>, up: set<string>, readings: map<string, Reading>,
                     replace: bool, ghost before: map<string, seq<Datum>>)
      returns (e: Option<Error>)
      modifies this
      requires i < |vs| && PassWrites(pass, vs[..i], pvs, up, readings).1.None?
      requires datasets == Apply(before, PassWrites(pass, vs[..i], pvs, up, readings).0, replace)
      ensures e.None? ==> (&& PassWrites(pass, vs[..i + 1], pvs, up, readings).1.None?
                           && datasets == Apply(before, PassWrites(pass, vs[..i + 1], pvs, up, readings).0, replace))
      ensures e.Some? ==> (&& PassWrites(pass, vs, pvs, up, readings).1 == e
                           && datasets == Apply(before, PassWrites(pass, vs, pvs, up, readings).0, replace))
      ensures groups == old(groups) && rootAttrs == old(rootAttrs) && targets == old(targets)
      ensures links == old(links) && closed == old(closed)
    {
      ghost var done := PassWrites(pass, vs[..i], pvs, up, readings).0;
      PassWritesStep(pass, vs, i, pvs, up, readings);
      e := WriteOne(pass, vs[i], pvs, up, readings, replace, before, done);
      if e.Some? {
        PassWritesFailed(pass, vs, i + 1, pvs, up, readings);
      }
    }

    /** The writes of one pass over the given PVs, in order, stopping at
        the first error. */
    method WritePvs(pass: Pass, vs: seq<PvSpec>, pvs: Dict<string, PvSpec>, up: set<string>, readings: map<string, Reading>, replace: bool)
      returns (e: Option<Error>)
      modifies this
      ensures e == PassWrites(pass, vs, pvs, up, readings).1
      ensures datasets == Apply(old(datasets), PassWrites(pass, vs, pvs, up, readings).0, replace)
      ensures groups == old(groups) && rootAttrs == old(rootAttrs) && targets == old(targets)
      ensures links == old(links) && closed == old(closed)
    {
      var i := 0;
      assert vs[..0] == [];
      while i < |vs|
        invariant 0 <= i <= |vs|
        invariant PassWrites(pass, vs[..i], pvs, up, readings).1.None?
        invariant datasets == Apply(old(datasets), PassWrites(pass, vs[..i], pvs, up, readings).0, replace)
        invariant groups == old(groups) && rootAttrs == old(rootAttrs) && targets == old(targets)
        invariant links == old(links) && closed == old(closed)
      {
        ghost var before := old(datasets);
        e := WriteNext(pass, vs, i, pvs, up, readings, replace, before);
        if e.Some? {
          return;
        }
        i := i + 1;
      }
      assert vs[..i] == vs;
      e := None;
    }

    /** One pass over the PVs in registry order (`preliminaryWriteFile`
        or the PV part of `saveFile`); the list of unconnected signals is
        taken first. */
    method WritePass(reg: Registries, pass: Pass, up: set<string>, readings: map<string, Reading>, replace: bool)
      returns (e: Option<Error>)
      modifies this
      ensures var u := Unconnected(Values(reg.pvs), up);
        && (u.Err? ==> e == Some(u.error) && datasets == old(datasets))
        && (u.Ok? ==> var (ws, err) := PassWrites(pass, Values(reg.pvs), reg.pvs, up, readings);
              e == err && datasets == Apply(old(datasets), ws, replace))
      ensures groups == old(groups) && rootAttrs == old(rootAttrs) && targets == old(targets)
      ensures links == old(links) && closed == old(closed)
    {
      var u := Unconnected(Values(reg.pvs), up);
      if u.Err? {
        return Some(u.error);
      }
      e := WritePvs(pass, Values(reg.pvs), reg.pvs, up, readings, replace);
    }

    /** `preliminaryWriteFile`: the PVs not acquired after the scan. */
    method PreliminaryWriteFile(reg: Registries, up: set<string>, readings: map<string, Reading>, replace: bool)
      returns (e: Option<Error>)
      modifies this
      ensures Unconnected(Values(reg.pvs), up).Ok? ==> var (ws, err) := PassWrites(Preliminary, Values(reg.pvs), reg.pvs, up, readings);
        e == err && datasets == Apply(old(datasets), ws, replace)
      ensures Unconnected(Values(reg.pvs), up).Err? ==> e.Some? && datasets == old(datasets)
      ensures groups == old(groups) && rootAttrs == old(rootAttrs) && targets == old(targets)
      ensures links == old(links) && closed == old(closed)
    {
      e := WritePass(reg, Preliminary, up, readings, replace);
    }

    /** `saveFile`: stamp the root, write the PVs acquired after the scan,
        make the links, close the file.  A missing root group raises
        KeyError; an error leaves the file open, with the links made
        before a failing one still in it. */
    method SaveFile(reg: Registries, up: set<string>, readings: map<string, Reading>, timestamp: string, skipUnconnected: bool, replace: bool)
      returns (e: Option<Error>)
      modifies this
      ensures "/" !in Keys(reg.groups) ==> e == Some(KeyError("/")) && datasets == old(datasets) && closed == old(closed)
      ensures "/" in Keys(reg.groups) && "/" !in old(groups) ==> e == Some(AttributeError) && datasets == old(datasets)
      ensures "/" in Keys(reg.groups) && "/" in old(groups) ==>
        && rootAttrs == old(rootAttrs)["timestamp" := timestamp]
        && var u := Unconnected(Values(reg.pvs), up);
        && (u.Err? ==>
              && e == Some(u.error) && datasets == old(datasets)
              && targets == old(targets) && links == old(links) && closed == old(closed))
        && (u.Ok? ==> var (ws, err) := PassWrites(AfterScan(skipUnconnected), Values(reg.pvs), reg.pvs, up, readings);
              && datasets == Apply(old(datasets), ws, replace)
              && (err.Some? ==> e == err && targets == old(targets) && links == old(links) && closed == old(closed))
              && (err.None? ==> var (t, l, le) := MakeLinks(old(Objects()) + datasets.Keys, old(targets), old(links), Values(reg.links));
                    e == le && targets == t && links == l && closed == (le.None? || old(closed))))
      ensures e.None? ==>
        (&& closed && rootAttrs == old(rootAttrs)["timestamp" := timestamp]
         && Unconnected(Values(reg.pvs), up).Ok?
         && var (ws, err) := PassWrites(AfterScan(skipUnconnected), Values(reg.pvs), reg.pvs, up, readings);
         && err.None? && datasets == Apply(old(datasets), ws, replace)
         && var (t, l, le) := MakeLinks(old(Objects()) + datasets.Keys, old(targets), old(links), Values(reg.links));
         && le.None? && targets == t && links == l)
      ensures groups == old(groups)
    {
      if "/" !in Keys(reg.groups) {
        return Some(KeyError("/"));
      }
      if "/" !in groups {
        return Some(AttributeError);
      }
      rootAttrs := rootAttrs["timestamp" := timestamp];
      e := WritePass(reg, AfterScan(skipUnconnected), up, readings, replace);
      if e.Some? {
        return;
      }
      e := LinkAndClose(Values(reg.links));
    }

    /** The end of `saveFile`: the links are made in order among the objects
        now in the file, then the file is closed.  A failing link stops the
        loop: the links and "target" attributes written before it stay and
        the file is left open. */
    method LinkAndClose(ls: seq<LinkSpec>) returns (e: Option<Error>)
      modifies this
      ensures var (t, l, le) := MakeLinks(old(Objects()) + old(datasets).Keys, old(targets), old(links), ls);
        e == le && targets == t && links == l && closed == (le.None? || old(closed))
      ensures groups == old(groups) && datasets == old(datasets) && rootAttrs == old(rootAttrs)
    {
      var (t, l, le) := MakeLinks(Objects() + datasets.Keys, targets, links, ls);
      targets := t;
      links := l;
      if le.Some? {
        return le;
      }
      closed := true;
      return None;
    }
  }

  /** `_prepare_to_acquire` without the waits for connection: read the
      configuration and make the signals unless that was done before,
      then create the file. */
  method PrepareToAcquire(mgr: Structure, cfg: Config, file: FlyFile, fileName: string, configFile: string, replace: bool)
    returns (e: Option<Error>)
    modifies mgr, file
    ensures old(mgr.configured) ==> mgr.regs == old(mgr.regs)
    ensures !old(mgr.configured) ==> var (r, err) := Configure(cfg, old(mgr.regs));
      (err.Some? ==> e == err && mgr.regs == r) && (err.None? ==> mgr.regs == r.(pvs := WithSignals(r.pvs)))
    ensures old(mgr.configured) || Configure(cfg, old(mgr.regs)).1.None? ==>
      file.Created(mgr.regs, fileName, CreatorVersion, configFile, replace, e)
    ensures !old(mgr.configured) && Configure(cfg, old(mgr.regs)).1.Some? ==> unchanged(file)
    ensures e.None? ==> file.groups == SortPaths(Keys(mgr.regs.groups)) || !GroupsValid(mgr.regs.groups)
  {
    if !mgr.configured {
      e := mgr.ReadConfiguration(cfg);
      if e.Some? {
        return;
      }
      mgr.ConnectOphyd();
    }
    e := file.CreateStructure(mgr.regs, fileName, CreatorVersion, configFile, replace);
    if GroupsValid(mgr.regs.groups) {
      CreateAllGroups(mgr.regs.groups);
    }
  }

  // ----- the command line entry point -----

  /** `os.path.dirname(p)`: everything before the last slash, with
      trailing slashes removed unless it is all slashes. */
  function Dirname(p: string): (r: string)
    ensures r <= p
    ensures '/' !in p ==> r == ""
  {
    var head := p[..HeadLength(p)];
    if head != [] && exists i :: 0 <= i < |head| && head[i] != '/' then StripSlashes(head) else head
  }

  /** Length of `p` up to and including its last slash. */
  function HeadLength(p: string): (n: nat)
    ensures n <= |p| && (n > 0 ==> p[n - 1] == '/') && '/' !in p[n..]
  {
    if p == [] then 0
    else if p[|p| - 1] == '/' then |p|
    else HeadLength(p[..|p| - 1])
  }

  function StripSlashes(s: string): (r: string)
    ensures r <= s
  {
    if s != [] && s[|s| - 1] == '/' then StripSlashes(s[..|s| - 1]) else s
  }

  /** The directory of a file named under a directory is that directory. */
  lemma DirnameOfChild(dir: string, name: string)
    requires '/' !in name && dir != [] && dir[|dir| - 1] != '/'
    ensures Dirname(dir + "/" + name) == dir
  {
    var p := dir + "/" + name;
    HeadOfChild(dir, name);
    assert p[..|dir| + 1] == dir + "/";
    assert (dir + "/")[|dir| - 1] != '/';
    assert StripSlashes(dir + "/") == dir by {
      assert (dir + "/")[..|dir|] == dir;
    }
  }

  lemma {:induction false} HeadOfChild(dir: string, name: string)
    requires '/' !in name
    ensures HeadLength(dir + "/" + name) == |dir| + 1
    decreases |name|
  {
    var p := dir + "/" + name;
    if name != [] {
      assert p[..|p| - 1] == dir + "/" + name[..|name| - 1];
      HeadOfChild(dir, name[..|name| - 1]);
    }
  }

  /** `main()`'s checks, given the set of paths that exist: the data
      file's directory (if it names one) must exist, the data file must
      not, and the configuration file must. */
  function MainChecks(dataFile: string, configFile: string, exists_: set<string>): (r: Option<Error>)
    ensures r.None? <==> (Dirname(dataFile) == "" || Dirname(dataFile) in exists_) && dataFile !in exists_ && configFile in exists_
    ensures r.Some? ==> r.value.RuntimeError?
    ensures Dirname(dataFile) != "" && Dirname(dataFile) !in exists_ ==>
      r == Some(RuntimeError("directory for that file does not exist: " + dataFile))
  {
    var dir := Dirname(dataFile);
    if |dir| > 0 && dir !in exists_ then Some(RuntimeError("directory for that file does not exist: " + dataFile))
    else if dataFile in exists_ then Some(RuntimeError("file exists: " + dataFile))
    else if configFile !in exists_ then Some(RuntimeError("config file not found: " + configFile))
    else None
  }
}
